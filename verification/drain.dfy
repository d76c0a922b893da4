/** The per-order event drain: reads the broker's queue until the order ends or the wait times out. */
module Draining {
  import opened Domain
  import opened EventQueue
  import opened Answers
  import opened OrderFsm
  import opened OrderTracking
  import opened PriceGrid
  import opened IBBrokerModel
  import opened IBBrokerAdapter

  /** While the drain waits, the environment acts or the drain reads; running out of turns is the timeout. */
  datatype Turn = Env(step: Step) | Read

  /** Only the pipeline submits orders. */
  predicate EnvStep(s: Step) {
    !s.BeginSubmit? && !s.ResumeSubmit?
  }

  predicate EnvTurns(turns: seq<Turn>) {
    forall t :: t in turns && t.Env? ==> EnvStep(t.step)
  }

  function EnvSteps(turns: seq<Turn>): seq<Step> {
    if turns == [] then []
    else
      var last := turns[|turns| - 1];
      EnvSteps(turns[..|turns| - 1]) + if last.Env? then [last.step] else []
  }

  /** One turn of the wait: the environment acts, or `queue.get()` returns the oldest item, if any. */
  method TakeTurn(broker: IBBroker, id: OrderId, turn: Turn) returns (own: Option<OrderEvent>,
                  ghost read: seq<QueueItem>)
    requires broker.Valid() && (turn.Env? ==> EnvStep(turn.step))
    modifies broker
    ensures broker.Valid() && broker.taken == old(broker.taken) + read
    ensures broker.history == old(broker.history) + if turn.Env? then [turn.step] else []
    ensures |read| <= 1 && Own(read, id) == if own.Some? then [own.value] else []
  {
    own, read := None, [];
    if turn.Env? {
      broker.Perform(turn.step);
    } else if broker.queue != [] {
      var q := broker.Get();
      read := [q];
      OwnConcat([], q, id);
      if q.OrderItem? && q.event.id == id {
        own := Some(q.event);
      }
    }
  }

  /** One turn, and what it adds to the answer. */
  method DrainTurn(broker: IBBroker, id: OrderId, turn: Turn, before: Answer, ghost sofar: seq<QueueItem>)
    returns (answer: Answer, ended: bool, ghost more: seq<QueueItem>)
    requires broker.Valid() && (turn.Env? ==> EnvStep(turn.step)) && Following(before, Own(sofar, id), false)
    modifies broker
    ensures broker.Valid() && broker.taken == old(broker.taken) + more
    ensures broker.history == old(broker.history) + if turn.Env? then [turn.step] else []
    ensures Following(answer, Own(sofar + more, id), ended)
  {
    var own;
    own, more := TakeTurn(broker, id, turn);
    ReadOn(before, sofar, more, own, id);
    answer, ended := before, false;
    if own.Some? {
      answer := Extended(before, own.value);
      ended := IsTerminalKind(own.value.kind);
    }
  }

  /** The answer is a function of the order's own events among the items read: other orders' events and
      notices never matter. Reading stops at the first terminal event. */
  method DrainOrder(broker: IBBroker, id: OrderId, turns: seq<Turn>)
    returns (answer: Answer, used: nat, ghost read: seq<QueueItem>)
    requires broker.Valid() && EnvTurns(turns)
    modifies broker
    ensures used <= |turns| && broker.taken == old(broker.taken) + read
    ensures broker.Valid() && broker.history == old(broker.history) + EnvSteps(turns[..used])
    ensures Following(answer, Own(read, id), IsTerminal(answer.state)) && Reports(answer, Own(read, id))
    ensures !IsTerminal(answer.state) ==> used == |turns|
  {
    var ended := false;
    answer, read, used := Answer(SubmitPending, None, false), [], 0;
    while used < |turns| && !ended
      invariant used <= |turns| && broker.Valid()
      invariant broker.taken == old(broker.taken) + read
      invariant broker.history == old(broker.history) + EnvSteps(turns[..used])
      invariant Following(answer, Own(read, id), ended)
    {
      EnvStepsSnoc(turns, used);
      ghost var more;
      answer, ended, more := DrainTurn(broker, id, turns[used], answer, read);
      Associate(old(broker.taken), read, more);
      Associate(old(broker.history), EnvSteps(turns[..used]), if turns[used].Env? then [turns[used].step] else []);
      used, read := used + 1, read + more;
    }
    AnswerReports(Own(read, id));
  }

  lemma EnvStepsSnoc(turns: seq<Turn>, n: nat)
    requires n < |turns|
    ensures EnvSteps(turns[..n + 1]) ==
            EnvSteps(turns[..n]) + if turns[n].Env? then [turns[n].step] else []
  {
    assert turns[..n + 1][..n] == turns[..n];
  }

  lemma Associate<T>(a: seq<T>, b: seq<T>, c: seq<T>)
    ensures a + b + c == a + (b + c)
  {
  }

  // ---- What reaches the ledger ---------------------------------------------

  /** The fills the pipeline books for an order: the deciding fill of a FILLED answer, nothing else. */
  function Booked(read: seq<OrderEvent>): seq<Fill> {
    var a := AnswerFor(read);
    if a.state == Filled && a.fill.Some? then [a.fill.value] else []
  }

  /** An order's whole event trace: fills on fill events, terminal only at the end. */
  ghost predicate WholeTrace(all: seq<OrderEvent>) {
    && (forall e :: e in all ==> (IsFillKind(e.kind) <==> e.fill.Some?))
    && (forall i :: 0 <= i < |all| && IsTerminalKind(all[i].kind) ==> i == |all| - 1)
  }

  /** The ledger books exactly the broker's fills for an order if and only if there are none, or there is
      a single one that is FILLED and it was read in time. */
  lemma BookedIffOneFullFill(all: seq<OrderEvent>, n: nat)
    requires WholeTrace(all) && n <= |all|
    ensures Booked(all[..n]) == FillsIn(all) <==>
            FillsIn(all) == [] || (|FillsIn(all)| == 1 && n == |all| && all[|all| - 1].kind == EvFilled)
  {
    if n > 0 && all[n - 1].kind == EvFilled {
      assert IsTerminalKind(all[n - 1].kind);
      assert all[..n] == all;
      BookedWhenFilled(all);
    } else {
      BookedOtherwise(all[..n]);
    }
  }

  lemma BookedWhenFilled(all: seq<OrderEvent>)
    requires WholeTrace(all) && all != [] && all[|all| - 1].kind == EvFilled
    ensures Booked(all) == FillsIn(all) <==> |FillsIn(all)| == 1
    ensures FillsIn(all) != []
  {
    var e, before := all[|all| - 1], FillsIn(all[..|all| - 1]);
    assert e in all;
    assert FillsIn(all) == before + [e.fill.value];
    assert Booked(all) == [e.fill.value];
    if |FillsIn(all)| == 1 {
      assert before == [];
    }
  }

  lemma BookedOtherwise(read: seq<OrderEvent>)
    requires read == [] || read[|read| - 1].kind != EvFilled
    ensures Booked(read) == []
  {
  }

  /** A partial fill followed by the completing one: only the second is booked. */
  lemma PartialFillLost(a: OrderEvent, b: OrderEvent)
    requires a.kind == EvPartialFill && b.kind == EvFilled && a.fill.Some? && b.fill.Some?
    ensures WholeTrace([a, b])
    ensures Booked([a, b]) == [b.fill.value] && FillsIn([a, b]) == [a.fill.value, b.fill.value]
  {
    assert [a, b][..1] == [a] && [a][..0] == [];
    assert FillsIn([a]) == FillsIn([]) + [a.fill.value];
    assert FillsIn([a, b]) == FillsIn([a]) + [b.fill.value];
  }
}
