/** One order's events on the broker's queue, over whole runs, and what the pipeline reads of them. */
module OrderEvents {
  import opened Domain
  import opened EventQueue
  import opened Answers
  import opened OrderFsm
  import opened OrderTracking
  import opened PriceGrid
  import opened IBBrokerModel
  import opened IBBrokerRuns
  import opened IBBrokerTheorems
  import opened Submissions
  import opened Draining

  // ---- Every order's events ------------------------------------------------

  /** A fill event carries a valid fill of the order it names. */
  ghost predicate FillOfOrder(e: OrderEvent, o: Order) {
    e.fill.Some? ==>
      var f := e.fill.value;
      ValidFill(f) && f.orderId == o.id && f.instrument == o.instrument && f.side == o.side
  }

  /** Queued events of a freshly submitted order: fills exactly on fill events and of that order, nothing
      after a terminal event; an order never placed has no fills. */
  lemma OwnEventsSound(steps: seq<Step>, policy: RoundingPolicy, id: OrderId)
    requires FreshFor(steps, policy, id)
    ensures var b := Exec(steps, policy);
            var own := Own(b.puts, id);
            && WholeTrace(own)
            && forall e :: e in own ==>
                 e.id == id && if id in b.tracking then FillOfOrder(e, b.tracking[id].order) else e.fill.None?
  {
    var b := Exec(steps, policy);
    var own := Own(b.puts, id);
    OwnIds(b.puts, id);
    RunProjects(steps, policy, id);
    RunKeepsInvariant(steps, policy, id);
    EveryOrderTrace(steps, policy, id);
    forall i | 0 <= i < |own|
      ensures own[i].id == id && (IsFillKind(own[i].kind) <==> own[i].fill.Some?)
      ensures if id in b.tracking then FillOfOrder(own[i], b.tracking[id].order) else own[i].fill.None?
      ensures IsTerminalKind(own[i].kind) ==> i == |own| - 1
    {
      assert own[i] in own;
      QueuedIsFaithful(b, CallbacksTo(steps, id, policy), id, i);
      assert EventKinds(own)[i] == Kinds(EventsOf(b, id))[i] == own[i].kind;
    }
  }

  lemma QueuedIsFaithful(b: Broker, cbs: seq<Callback>, id: OrderId, i: nat)
    requires Projects(b, id, cbs) && i < |Own(b.puts, id)|
    requires id in b.tracking ==> b.tracking[id].order.id == id
    ensures var e := Own(b.puts, id)[i];
            && (IsFillKind(e.kind) <==> e.fill.Some?)
            && if id in b.tracking then FillOfOrder(e, b.tracking[id].order) else e.fill.None?
  {
    var e := Own(b.puts, id)[i];
    assert EventsOf(b, id)[i] == Emitted(e);
    if id in b.tracking {
      var order := b.tracking[id].order;
      FillsAreFaithful(order, cbs);
      if i > 0 {
        var m := Spec(order, cbs)[i];
        assert m == Emissions(NewTracking(order), cbs)[i - 1] && m in Emissions(NewTracking(order), cbs);
        assert Faithful(order, Track(NewTracking(order), cbs).seen, m);
      }
    }
  }

  // ---- Steps that are not submissions --------------------------------------

  predicate AllEnv(steps: seq<Step>) {
    forall s :: s in steps ==> EnvStep(s)
  }

  /** What no environment step changes; the queue only grows. */
  ghost predicate SameOrders(b: Broker, b': Broker) {
    && b'.tracking.Keys == b.tracking.Keys && b'.inflight == b.inflight && b'.wire == b.wire
    && (forall id :: id in b.tracking ==> b'.tracking[id].order == b.tracking[id].order)
    && b.puts <= b'.puts
  }

  lemma EnvStepKeeps(b: Broker, s: Step, policy: RoundingPolicy)
    requires EnvStep(s) && b.trades.Keys == b.tracking.Keys
    ensures SameOrders(b, Next(b, s, policy))
  {
    match s {
      case Push(id, cb) =>
        if id in b.tracking { HandleFaithful(b.tracking[id], cb); }
      case _ =>
    }
  }

  /** Nothing of the id was placed, announced or scheduled. */
  ghost predicate Unknown(b: Broker, id: OrderId) {
    id !in b.tracking && EventsOf(b, id) == []
  }

  ghost predicate AllFresh(steps: seq<Step>, policy: RoundingPolicy) {
    forall id :: FreshFor(steps, policy, id)
  }

  lemma UnknownStays(b: Broker, s: Step, policy: RoundingPolicy, id: OrderId)
    requires OrderOk(b, id) && Unknown(b, id)
    requires s.ResumeSubmit? && s.index < |b.inflight| ==> !LiveAt(b, s.index, id)
    ensures Unknown(Next(b, s, policy), id)
  {
    StepEvents(b, s, policy, id);
    OtherUntouched(b, s, policy, id);
    assert EventsOf(b, id) + [] == EventsOf(b, id);
  }

  lemma {:induction false} EnvRunKeeps(steps: seq<Step>, env: seq<Step>, policy: RoundingPolicy)
    requires AllFresh(steps, policy) && AllEnv(env)
    ensures AllFresh(steps + env, policy)
    ensures SameOrders(Exec(steps, policy), Exec(steps + env, policy))
    ensures forall id :: Unknown(Exec(steps, policy), id) ==> Unknown(Exec(steps + env, policy), id)
  {
    if env == [] {
      assert steps + env == steps;
    } else {
      var init, s := steps + env[..|env| - 1], env[|env| - 1];
      assert steps + env == init + [s] && s in env;
      EnvRunKeeps(steps, env[..|env| - 1], policy);
      RunKeepsInvariant(init, policy, 0);
      EnvStepKeeps(Exec(init, policy), s, policy);
      ExecSnoc(init, s, policy);
      forall id | Unknown(Exec(init, policy), id)
        ensures Unknown(Exec(init + [s], policy), id)
      {
        RunKeepsInvariant(init, policy, id);
        UnknownStays(Exec(init, policy), s, policy, id);
      }
    }
  }

  lemma {:induction false} EnvStepsAreEnv(turns: seq<Turn>)
    requires EnvTurns(turns)
    ensures AllEnv(EnvSteps(turns))
  {
    if turns != [] {
      EnvStepsAreEnv(turns[..|turns| - 1]);
    }
  }

  // ---- Submitting one order ------------------------------------------------

  /** Fresh so far, nothing in flight, and nothing known of ids from `nextId` on. */
  ghost predicate Idle(steps: seq<Step>, nextId: OrderId, policy: RoundingPolicy) {
    && AllFresh(steps, policy) && Exec(steps, policy).inflight == []
    && forall id :: id >= nextId ==> Unknown(Exec(steps, policy), id)
  }

  lemma IdleEnv(steps: seq<Step>, env: seq<Step>, nextId: OrderId, policy: RoundingPolicy)
    requires Idle(steps, nextId, policy) && AllEnv(env)
    ensures Idle(steps + env, nextId, policy) && SameOrders(Exec(steps, policy), Exec(steps + env, policy))
  {
    EnvRunKeeps(steps, env, policy);
  }

  /** The next id is unknown to the broker and has no events. */
  lemma FreshIsSilent(steps: seq<Step>, id: OrderId, policy: RoundingPolicy)
    requires Idle(steps, id, policy)
    ensures id !in Exec(steps, policy).trades && Own(Exec(steps, policy).puts, id) == []
    ensures EventsOf(Exec(steps, policy), id) == [] && !InFlight(Exec(steps, policy), id)
  {
    var b := Exec(steps, policy);
    RunKeepsInvariant(steps, policy, id);
    assert Unknown(b, id);
    assert |AllEmitted(Own(b.puts, id))| <= |EventsOf(b, id)|;
  }

  /** What one submission leaves: the order tracked under its own id or not at all, no other order
      touched, and only this order possibly added to the wire. */
  ghost predicate SubmittedOnly(b: Broker, o: Order, b': Broker, policy: RoundingPolicy) {
    && b.puts <= b'.puts
    && (forall id :: id in b.tracking ==> id in b'.tracking && b'.tracking[id].order == b.tracking[id].order)
    && (forall p :: p in b'.wire ==> p in b.wire || PlacedFor(o, p, policy))
    && (o.id in b'.tracking ==>
          var o' := b'.tracking[o.id].order;
          o'.id == o.id && o'.instrument == o.instrument && o'.side == o.side)
  }

  lemma SubmissionRuns(steps: seq<Step>, o: Order, during: seq<Step>, grid: Option<seq<Band>>, ibId: int,
                       policy: RoundingPolicy)
    requires Idle(steps, o.id, policy) && AllEnv(during)
    ensures Exec(steps + [BeginSubmit(o)] + during, policy).inflight == [o]
    ensures Idle(steps + [BeginSubmit(o)] + during + [ResumeSubmit(0, grid, ibId)], o.id + 1, policy)
    ensures SubmittedOnly(Exec(steps, policy), o,
                          Exec(steps + [BeginSubmit(o)] + during + [ResumeSubmit(0, grid, ibId)], policy), policy)
  {
    var begun := steps + [BeginSubmit(o)];
    var resume := ResumeSubmit(0, grid, ibId);
    BeginRuns(steps, o, policy);
    EnvRunKeeps(begun, during, policy);
    ResumeRuns(begun + during, o, grid, ibId, policy);
    var all := begun + during + [resume];
    SubmittedThrough(Exec(steps, policy), Exec(begun, policy), Exec(begun + during, policy), Exec(all, policy), o,
                     policy);
  }

  lemma SubmittedThrough(b0: Broker, b1: Broker, b2: Broker, b3: Broker, o: Order, policy: RoundingPolicy)
    requires b1 == b0.(inflight := [o]) && SameOrders(b1, b2) && SubmittedOnly(b2, o, b3, policy)
    ensures SubmittedOnly(b0, o, b3, policy)
  {
  }

  lemma BeginRuns(steps: seq<Step>, o: Order, policy: RoundingPolicy)
    requires Idle(steps, o.id, policy)
    ensures var begun := steps + [BeginSubmit(o)];
            && AllFresh(begun, policy) && (forall id :: id >= o.id ==> Unknown(Exec(begun, policy), id))
            && Exec(begun, policy) == Exec(steps, policy).(inflight := [o])
  {
    FreshIsSilent(steps, o.id, policy);
    ExecSnoc(steps, BeginSubmit(o), policy);
    var b := Exec(steps, policy);
    assert [] + [o] == [o];
    forall id | id >= o.id
      ensures Unknown(b.(inflight := [o]), id)
    {
      assert Unknown(b, id);
    }
  }

  lemma ResumeRuns(steps: seq<Step>, o: Order, grid: Option<seq<Band>>, ibId: int, policy: RoundingPolicy)
    requires AllFresh(steps, policy) && Exec(steps, policy).inflight == [o]
    requires forall id :: id >= o.id ==> Unknown(Exec(steps, policy), id)
    ensures var resume := ResumeSubmit(0, grid, ibId);
            && Idle(steps + [resume], o.id + 1, policy)
            && SubmittedOnly(Exec(steps, policy), o, Exec(steps + [resume], policy), policy)
  {
    var resume, b := ResumeSubmit(0, grid, ibId), Exec(steps, policy);
    RunKeepsInvariant(steps, policy, o.id);
    ExecSnoc(steps, resume, policy);
    assert Unknown(b, o.id);
    ResumeOnly(b, o, grid, ibId, policy);
    forall id | id >= o.id + 1
      ensures Unknown(Exec(steps + [resume], policy), id)
    {
      RunKeepsInvariant(steps, policy, id);
      assert Unknown(b, id);
      UnknownStays(b, resume, policy, id);
    }
  }

  lemma ResumeOnly(b: Broker, o: Order, grid: Option<seq<Band>>, ibId: int, policy: RoundingPolicy)
    requires b.inflight == [o] && o.id !in b.tracking
    ensures Resume(b, 0, grid, ibId, policy).inflight == []
    ensures SubmittedOnly(b, o, Resume(b, 0, grid, ibId, policy), policy)
  {
    SnapKeepsOrder(o, grid, policy);
    StepPlaces(b, ResumeSubmit(0, grid, ibId), policy);
    assert b.inflight[..0] + b.inflight[1..] == [];
  }

  // ---- Applied fills against the broker's fills -----------------------------

  /** The fills of several orders, order by order, as queued by the broker. */
  function FillsOf(ids: seq<OrderId>, puts: seq<QueueItem>): seq<Fill> {
    if ids == [] then [] else FillsOf(ids[..|ids| - 1], puts) + FillsIn(Own(puts, ids[|ids| - 1]))
  }

  function BookedOf(parts: seq<seq<OrderEvent>>): seq<Fill> {
    if parts == [] then [] else BookedOf(parts[..|parts| - 1]) + Booked(parts[|parts| - 1])
  }

  /** No fill at all, or one full fill that was read before the wait ended. */
  ghost predicate FilledWhole(read: seq<OrderEvent>, own: seq<OrderEvent>) {
    FillsIn(own) == [] || (|FillsIn(own)| == 1 && read == own && own[|own| - 1].kind == EvFilled)
  }

  /** Each read is a part, up to some cut, of the order's whole trace. */
  ghost predicate ReadParts(parts: seq<seq<OrderEvent>>, ids: seq<OrderId>, puts: seq<QueueItem>) {
    && |parts| == |ids|
    && forall i :: 0 <= i < |ids| ==> parts[i] <= Own(puts, ids[i]) && WholeTrace(Own(puts, ids[i]))
  }

  lemma BookedPart(read: seq<OrderEvent>, own: seq<OrderEvent>)
    requires read <= own && WholeTrace(own)
    ensures |Booked(read)| <= |FillsIn(own)|
    ensures Booked(read) == FillsIn(own) <==> FilledWhole(read, own)
  {
    var n := |read|;
    assert own[..n] == read;
    BookedIffOneFullFill(own, n);
    FillsInPrefix(own, n);
  }

  lemma ConcatSplit<T>(a: seq<T>, b: seq<T>, c: seq<T>, d: seq<T>)
    requires |a| <= |c| && |b| <= |d|
    ensures a + b == c + d <==> a == c && b == d
  {
    if a + b == c + d {
      assert |a| + |b| == |c| + |d|;
      assert a == (a + b)[..|a|] && b == (a + b)[|a|..];
      assert c == (c + d)[..|c|] && d == (c + d)[|c|..];
    }
  }

  /** The booked fills are exactly the broker's fills if and only if every order had no fill or one full
      fill in time. */
  lemma {:induction false} BookedAllIff(parts: seq<seq<OrderEvent>>, ids: seq<OrderId>, puts: seq<QueueItem>)
    requires ReadParts(parts, ids, puts)
    ensures |BookedOf(parts)| <= |FillsOf(ids, puts)|
    ensures BookedOf(parts) == FillsOf(ids, puts) <==> AllWhole(parts, ids, puts)
  {
    if ids != [] {
      var n := |ids| - 1;
      BookedAllIff(parts[..n], ids[..n], puts);
      BookedPart(parts[n], Own(puts, ids[n]));
      ConcatSplit(BookedOf(parts[..n]), Booked(parts[n]), FillsOf(ids[..n], puts), FillsIn(Own(puts, ids[n])));
      WholeSnoc(parts, ids, puts, n);
    }
  }

  ghost predicate AllWhole(parts: seq<seq<OrderEvent>>, ids: seq<OrderId>, puts: seq<QueueItem>)
    requires |parts| == |ids|
  {
    forall i :: 0 <= i < |ids| ==> FilledWhole(parts[i], Own(puts, ids[i]))
  }

  lemma WholeSnoc(parts: seq<seq<OrderEvent>>, ids: seq<OrderId>, puts: seq<QueueItem>, n: nat)
    requires |parts| == |ids| == n + 1
    ensures AllWhole(parts, ids, puts) <==>
            AllWhole(parts[..n], ids[..n], puts) && FilledWhole(parts[n], Own(puts, ids[n]))
  {
    if AllWhole(parts, ids, puts) {
      forall i | 0 <= i < n
        ensures FilledWhole(parts[..n][i], Own(puts, ids[..n][i]))
      {
        assert FilledWhole(parts[i], Own(puts, ids[i]));
      }
    }
    if AllWhole(parts[..n], ids[..n], puts) && FilledWhole(parts[n], Own(puts, ids[n])) {
      forall i | 0 <= i < |ids|
        ensures FilledWhole(parts[i], Own(puts, ids[i]))
      {
        if i < n {
          assert FilledWhole(parts[..n][i], Own(puts, ids[..n][i]));
        }
      }
    }
  }
}
