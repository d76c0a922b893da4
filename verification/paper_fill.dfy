/** One order through the paper broker and the drain that follows it. */
module PaperFilling {
  import opened Domain
  import opened EventQueue
  import opened Answers
  import opened OrderFsm
  import opened PaperBrokerModel
  import opened PaperBrokerAdapter

  /** Between orders: connected, nothing open, every event read. */
  ghost predicate Rested(broker: PaperBroker)
    reads broker
  {
    broker.Valid() && broker.connected && broker.open == map[] && broker.queue == []
  }

  function AckOf(id: OrderId): QueueItem {
    OrderItem(OrderEvent(id, EvSubmitted, NoReason, None))
  }

  function AcceptOf(id: OrderId): QueueItem {
    OrderItem(OrderEvent(id, EvAccepted, NoReason, None))
  }

  function FilledOf(f: Fill): QueueItem {
    OrderItem(OrderEvent(f.orderId, EvFilled, NoReason, Some(f)))
  }

  /** An instant lifecycle: the new task runs to its end in one go. */
  method SubmitAndRun(broker: PaperBroker, order: Order, price: real, time: int) returns (ghost fill: Fill)
    requires Rested(broker) && order.orderType == Mkt
    modifies broker
    ensures broker.Valid() && broker.connected && broker.open == map[]
    ensures fill == PaperFill(Lifecycle(order, old(broker.nextSeq), AtAck), price, broker.commissionPerShare, time)
    ensures broker.taken == old(broker.taken)
    ensures broker.queue == [AckOf(order.id), AcceptOf(order.id)] + if ValidFill(fill) then [FilledOf(fill)] else []
  {
    var i := |broker.tasks|;
    ghost var taken, b := broker.taken, broker.View();
    fill := PaperFill(Lifecycle(order, broker.nextSeq, AtAck), price, broker.commissionPerShare, time);
    var _ := broker.Submit(order);
    broker.Advance(i, price, time);
    broker.Advance(i, price, time);
    broker.Advance(i, price, time);
    InstantRun(b, order, price, time, broker.commissionPerShare);
    Same(taken, broker.queue, [AckOf(order.id), AcceptOf(order.id)] + if ValidFill(fill) then [FilledOf(fill)] else []);
  }

  /** The new task's three resumptions, with nothing in between. */
  lemma InstantRun(b: Paper, o: Order, price: real, time: int, cps: real)
    requires b.connected && b.open == map[] && o.orderType == Mkt
    ensures var n, f := |b.tasks|, PaperFill(Lifecycle(o, b.nextSeq, AtAck), price, cps, time);
            var b1 := OnAdvance(OnSubmit(b, o), n, price, time, cps);
            var b3 := OnAdvance(OnAdvance(b1, n, price, time, cps), n, price, time, cps);
            && b3.connected && b3.open == map[]
            && b3.puts == b.puts + ([AckOf(o.id), AcceptOf(o.id)] + if ValidFill(f) then [FilledOf(f)] else [])
  {
    var n := |b.tasks|;
    var b1 := OnAdvance(OnSubmit(b, o), n, price, time, cps);
    assert b1.puts == b.puts + [AckOf(o.id)] && b1.open == map[o.id := o];
    assert b1.tasks[n] == Lifecycle(o, b.nextSeq, AtAccept);
    var b2 := OnAdvance(b1, n, price, time, cps);
    assert b2.puts == b.puts + [AckOf(o.id), AcceptOf(o.id)] && b2.tasks[n] == Lifecycle(o, b.nextSeq, AtFill);
    assert b2.open == map[o.id := o] && map[o.id := o] - {o.id} == map[];
    SameFillAt(o, b.nextSeq, price, cps, time);
  }

  lemma SameFillAt(o: Order, n: nat, price: real, cps: real, time: int)
    ensures PaperFill(Lifecycle(o, n, AtFill), price, cps, time) == PaperFill(Lifecycle(o, n, AtAck), price, cps, time)
  {
  }

  lemma Same(taken: seq<QueueItem>, a: seq<QueueItem>, b: seq<QueueItem>)
    ensures taken + a == taken + b ==> a == b
  {
    if taken + a == taken + b {
      assert a == (taken + a)[|taken|..] && b == (taken + b)[|taken|..];
    }
  }

  /** The oldest unread item: the event if it is the target's own. */
  method TakeNext(broker: PaperBroker, id: OrderId) returns (own: Option<OrderEvent>, ghost read: seq<QueueItem>)
    requires broker.Valid() && broker.queue != []
    modifies broker`queue, broker`taken
    ensures broker.Valid() && old(broker.queue) == read + broker.queue
    ensures |read| == 1 && Own(read, id) == if own.Some? then [own.value] else []
  {
    var q := broker.Get();
    read := [q];
    own := if q.OrderItem? && q.event.id == id then Some(q.event) else None;
    OwnConcat([], q, id);
  }

  lemma SplitOn(all: seq<QueueItem>, read: seq<QueueItem>, unread: seq<QueueItem>, more: seq<QueueItem>,
                rest: seq<QueueItem>)
    requires all == read + unread && unread == more + rest
    ensures all == (read + more) + rest
  {
  }

  /** Read until the order ends. A queue that runs dry first makes the drain wait for ever, as no task
      is left to fill it. */
  method DrainPaper(broker: PaperBroker, id: OrderId)
    returns (ended: bool, fill: Option<Fill>, ghost answer: Answer, ghost read: seq<QueueItem>)
    requires broker.Valid()
    modifies broker`queue, broker`taken
    ensures broker.Valid() && old(broker.queue) == read + broker.queue
    ensures Following(answer, Own(read, id), ended) && answer.fill == fill
    ensures !ended ==> broker.queue == []
  {
    var state := SubmitPending;
    ended, fill, read := false, None, [];
    answer := Answer(SubmitPending, None, false);
    while broker.queue != [] && !ended
      invariant broker.Valid() && old(broker.queue) == read + broker.queue
      invariant Following(answer, Own(read, id), ended)
      invariant answer.fill == fill && answer.state == state
      decreases |broker.queue|
    {
      ghost var unread := broker.queue;
      var own, more := TakeNext(broker, id);
      SplitOn(old(broker.queue), read, unread, more, broker.queue);
      ReadOn(answer, read, more, own, id);
      read := read + more;
      if own.Some? {
        var e := own.value;
        state := StateOf(e.kind);
        if IsFillKind(e.kind) && e.fill.Some? {
          fill := e.fill;
        }
        ended := IsTerminalKind(e.kind);
        answer := Extended(answer, e);
      }
    }
  }

  lemma OwnThree(id: OrderId, f: Fill)
    requires f.orderId == id
    ensures var s, a, z := AckOf(id), AcceptOf(id), FilledOf(f);
            && Own([s, a], id) == [s.event, a.event]
            && Own([s, a, z], id) == [s.event, a.event, z.event] && !OpenEvents(Own([s, a, z], id))
  {
    var s, a, z := AckOf(id), AcceptOf(id), FilledOf(f);
    OwnConcat([], s, id);
    OwnConcat([s], a, id);
    OwnConcat([s, a], z, id);
    assert [s] + [a] == [s, a] && [s, a] + [z] == [s, a, z];
    assert z.event in Own([s, a, z], id);
  }

  /** Reading the whole instant lifecycle ends exactly with its fill; without a fill it never ends. */
  lemma ReadInstant(id: OrderId, f: Fill, filled: bool, answer: Answer, read: seq<QueueItem>, rest: seq<QueueItem>,
                    ended: bool)
    requires f.orderId == id && Following(answer, Own(read, id), ended)
    requires read + rest == [AckOf(id), AcceptOf(id)] + (if filled then [FilledOf(f)] else [])
    requires !ended ==> rest == []
    ensures ended == filled && rest == [] && (ended ==> answer.fill == Some(f))
  {
    var s, a, z := AckOf(id), AcceptOf(id), FilledOf(f);
    OwnThree(id, f);
    var all := [s, a] + if filled then [z] else [];
    assert all == if filled then [s, a, z] else [s, a];
    assert read == all[..|read|];
    OwnAppend(read, rest, id);
    var own := Own(read, id);
    assert own <= Own(all, id);
    if ended {
      EndedByFill(id, f, filled, answer, own);
      OwnLength(read, id);
    } else {
      assert rest == [] && read == all;
    }
  }

  /** Of these events only the fill ends the order. */
  lemma EndedByFill(id: OrderId, f: Fill, filled: bool, answer: Answer, own: seq<OrderEvent>)
    requires Following(answer, own, true)
    requires own <= [AckOf(id).event, AcceptOf(id).event] + if filled then [FilledOf(f).event] else []
    ensures filled && |own| == 3 && answer.fill == Some(f)
  {
    var s, a, z := AckOf(id).event, AcceptOf(id).event, FilledOf(f).event;
    var all := [s, a] + if filled then [z] else [];
    assert own != [] && own[|own| - 1] == all[|own| - 1];
    AnswerReports(own);
    assert own[|own| - 1].kind == EvFilled;
    assert own == [s, a] + [z];
    AnswerSnoc([s, a], z);
  }

  lemma {:induction false} OwnLength(items: seq<QueueItem>, id: OrderId)
    ensures |Own(items, id)| <= |items|
  {
    if items != [] {
      OwnLength(items[..|items| - 1], id);
    }
  }

  /** A market order fills whole at the current price, unless no Fill accepts that fill: then the drain
      never returns. */
  method FillOrder(broker: PaperBroker, order: Order, price: real, time: int) returns (fill: Option<Fill>)
    requires Rested(broker) && order.orderType == Mkt
    modifies broker
    ensures Rested(broker)
    ensures var f := PaperFill(Lifecycle(order, old(broker.nextSeq), AtAck), price, broker.commissionPerShare, time);
            fill == if ValidFill(f) then Some(f) else None
  {
    ghost var f := SubmitAndRun(broker, order, price, time);
    var ended, last, answer, read := DrainPaper(broker, order.id);
    ReadInstant(order.id, f, ValidFill(f), answer, read, broker.queue, ended);
    fill := if ended then last else None;
  }
}
