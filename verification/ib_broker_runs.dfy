/** What every run of the IB broker keeps: each order's events are those of its own sequential
    machine, whatever the other orders, the wire and the scheduler do. */
module IBBrokerRuns {
  import opened Domain
  import opened EventQueue
  import opened OrderFsm
  import opened OrderTracking
  import opened PriceGrid
  import opened IBBrokerModel

  // ---- Emissions up to an open reason ----------------------------------------

  /** The same events, of which some open reasons may have been decided. */
  ghost predicate Settles(before: seq<Emission>, after: seq<Emission>) {
    && |before| == |after|
    && forall i :: 0 <= i < |before| ==>
         after[i] == before[i] || (before[i].reason.None? && after[i] == before[i].(reason := after[i].reason))
  }

  /** The same kinds and fills, and the same reason wherever the specification decides it. */
  ghost predicate Realises(actual: seq<Emission>, spec: seq<Emission>) {
    && |actual| == |spec|
    && forall i :: 0 <= i < |spec| ==>
         actual[i] == spec[i] || (spec[i].reason.None? && actual[i] == spec[i].(reason := actual[i].reason))
  }

  lemma RealisesSettled(before: seq<Emission>, after: seq<Emission>, spec: seq<Emission>)
    requires Realises(before, spec) && Settles(before, after)
    ensures Realises(after, spec)
  {
    forall i | 0 <= i < |spec|
      ensures after[i] == spec[i] || (spec[i].reason.None? && after[i] == spec[i].(reason := after[i].reason))
    {
      assert before[i] == spec[i] || spec[i].reason.None?;
    }
  }

  lemma RealisesAppend(actual: seq<Emission>, spec: seq<Emission>, more: seq<Emission>)
    requires Realises(actual, spec)
    ensures Realises(actual + more, spec + more)
  {
  }

  lemma SettlesSame(es: seq<Emission>)
    ensures Settles(es, es)
  {
  }

  // ---- Invariants, one order at a time -----------------------------------------

  ghost predicate Registered(b: Broker) {
    b.trades.Keys == b.tracking.Keys && forall id :: id in b.tracking ==> b.tracking[id].order.id == id
  }

  /** Only a tracked order has anything scheduled, and nothing behind its deferred reject. */
  ghost predicate ReadyOk(b: Broker, id: OrderId) {
    && (forall t :: t in b.ready && TaskId(t) == id ==>
          id in b.tracking && (t.RejectTask? ==> b.tracking[id].terminal))
    && (forall i, j :: 0 <= i < j < |b.ready| && b.ready[i].RejectTask? && b.ready[i].id == id ==>
          TaskId(b.ready[j]) != id)
  }

  /** At most one live submit is in progress, and then the order is unknown and silent. */
  ghost predicate FlightOk(b: Broker, id: OrderId) {
    && (forall i, j :: 0 <= i < j < |b.inflight| ==> !(LiveAt(b, i, id) && LiveAt(b, j, id)))
    && (InFlight(b, id) ==> id !in b.tracking && EventsOf(b, id) == [])
  }

  ghost predicate OrderOk(b: Broker, id: OrderId) {
    Registered(b) && ReadyOk(b, id) && FlightOk(b, id)
  }

  const UNPLACED := Emission(EvRejected, None, Some(PriceRuleUnavailable))

  /** What one step adds to the events of `id`. */
  function Added(b: Broker, s: Step, id: OrderId, policy: RoundingPolicy): seq<Emission> {
    match s
    case Push(i, cb) => if i == id && i in b.tracking && i in b.trades then Handle(b.tracking[i], cb).1 else []
    case ResumeSubmit(i, grid, _) =>
      if i < |b.inflight| && b.inflight[i].id == id then
        match SnapOrder(b.inflight[i], grid, policy)
        case Ok(o') => if Supported(o'.orderType) then [Plain(EvSubmitted, None)] else []
        case Err(e) => if e == NoGrid then [UNPLACED] else []
      else []
    case _ => []
  }

  lemma SnapKeepsOrder(o: Order, grid: Option<seq<Band>>, policy: RoundingPolicy)
    ensures SnapOrder(o, grid, policy).Ok? ==>
              var o' := SnapOrder(o, grid, policy).value;
              o' == o.(limitPrice := o'.limitPrice, stopPrice := o'.stopPrice)
    ensures Inert(o) ==> SnapOrder(o, grid, policy) != Err(NoGrid) &&
                         (SnapOrder(o, grid, policy).Ok? ==> !Supported(o.orderType))
  {
  }

  // ---- Events of one step --------------------------------------------------------

  lemma PushEvents(b: Broker, i: OrderId, cb: Callback, id: OrderId)
    requires i in b.tracking && i in b.trades
    ensures EventsOf(OnPush(b, i, cb), id) ==
            EventsOf(b, id) + if i == id then Handle(b.tracking[i], cb).1 else []
  {
    WaitingTasks(b.tracking[i], i, cb);
    WaitingConcat(b.ready, Tasks(b.tracking[i], i, cb), id);
  }

  lemma WaitingOne(t: Task, rest: seq<Task>, id: OrderId)
    ensures Waiting([t] + rest, id) == (if TaskId(t) == id then [TaskEmission(t)] else []) + Waiting(rest, id)
    ensures Waiting(rest + [t], id) == Waiting(rest, id) + if TaskId(t) == id then [TaskEmission(t)] else []
  {
    WaitingConcat([t], rest, id);
    WaitingConcat(rest, [t], id);
    assert [t][..0] == [];
  }

  /** Nothing of an order is scheduled behind its deferred reject. */
  lemma NothingBehindReject(b: Broker)
    requires b.ready != [] && b.ready[0].RejectTask? && ReadyOk(b, b.ready[0].id)
    ensures Waiting(b.ready[1..], b.ready[0].id) == []
  {
    var rest := b.ready[1..];
    forall u | u in rest
      ensures TaskId(u) != b.ready[0].id
    {
      var j :| 0 <= j < |rest| && rest[j] == u;
      assert b.ready[j + 1] == u;
    }
    WaitingNone(rest, b.ready[0].id);
  }

  lemma ReadyEvents(b: Broker, id: OrderId)
    requires ReadyOk(b, id)
    ensures Settles(EventsOf(b, id), EventsOf(OnReady(b), id))
  {
    if b.ready != [] {
      if b.ready[0].RejectTask? && b.ready[0].spins > 0 {
        SpinEvents(b, id);
      } else {
        PutReadyEvents(b, id);
      }
    }
  }

  lemma SpinEvents(b: Broker, id: OrderId)
    requires ReadyOk(b, id) && b.ready != [] && b.ready[0].RejectTask? && b.ready[0].spins > 0
    ensures EventsOf(OnReady(b), id) == EventsOf(b, id)
  {
    var t, rest := b.ready[0], b.ready[1..];
    var t' := RejectTask(t.id, t.spins - 1);
    assert b.ready == [t] + rest;
    WaitingOne(t, rest, id);
    WaitingOne(t', rest, id);
    if t.id == id {
      NothingBehindReject(b);
    }
    assert Waiting(rest + [t'], id) == Waiting([t] + rest, id);
  }

  lemma PutReadyEvents(b: Broker, id: OrderId)
    requires b.ready != [] && (b.ready[0].RejectTask? ==> b.ready[0].spins == 0)
    ensures Settles(EventsOf(b, id), EventsOf(OnReady(b), id))
  {
    var t, rest := b.ready[0], b.ready[1..];
    assert b.ready == [t] + rest;
    WaitingOne(t, rest, id);
    var e := if t.PutTask? then t.event else OrderEvent(t.id, EvRejected, RejectReason(b, t.id), None);
    QueuedSnoc(b.puts, OrderItem(e), id);
    assert OnReady(b).puts == b.puts + [OrderItem(e)] && OnReady(b).ready == rest;
    if TaskId(t) == id {
      MoveHead(AllEmitted(Own(b.puts, id)), TaskEmission(t), Emitted(e), Waiting(rest, id));
    } else {
      assert [] + Waiting(rest, id) == Waiting(rest, id);
      SettlesSame(EventsOf(b, id));
    }
  }

  lemma MoveHead(queued: seq<Emission>, m: Emission, m': Emission, rest: seq<Emission>)
    requires m' == m || (m.reason.None? && m' == m.(reason := m'.reason))
    ensures Settles(queued + ([m] + rest), queued + [m'] + rest)
  {
  }

  lemma ResumeEvents(b: Broker, i: nat, grid: Option<seq<Band>>, ibId: int, policy: RoundingPolicy, id: OrderId)
    requires OrderOk(b, id) && i < |b.inflight|
    ensures EventsOf(Resume(b, i, grid, ibId, policy), id) ==
            EventsOf(b, id) + Added(b, ResumeSubmit(i, grid, ibId), id, policy)
  {
    var o := b.inflight[i];
    SnapKeepsOrder(o, grid, policy);
    assert LiveAt(b, i, id) <==> o.id == id && !Inert(o);
    if Inert(o) {
      assert Added(b, ResumeSubmit(i, grid, ibId), id, policy) == [];
      assert EventsOf(b, id) + [] == EventsOf(b, id);
    } else if SnapOrder(o, grid, policy) == Err(NoGrid) {
      PutEvents(b, OrderEvent(o.id, EvRejected, PriceRuleUnavailable, None), id);
    } else {
      PutEvents(b, OrderEvent(o.id, EvSubmitted, NoReason, None), id);
    }
  }

  /** A direct put of an order with nothing scheduled comes after all its events. */
  lemma PutEvents(b: Broker, e: OrderEvent, id: OrderId)
    requires e.id == id ==> forall t :: t in b.ready ==> TaskId(t) != id
    ensures AllEmitted(Own(b.puts + [OrderItem(e)], id)) + Waiting(b.ready, id) ==
            EventsOf(b, id) + if e.id == id then [Emitted(e)] else []
  {
    QueuedSnoc(b.puts, OrderItem(e), id);
    if e.id == id {
      WaitingNone(b.ready, id);
    }
  }

  /** No step reorders, drops or invents events: it appends those of `Added`, and may decide an open reason. */
  lemma StepEvents(b: Broker, s: Step, policy: RoundingPolicy, id: OrderId)
    requires OrderOk(b, id)
    ensures Settles(EventsOf(b, id) + Added(b, s, id, policy), EventsOf(Next(b, s, policy), id))
  {
    var es := EventsOf(b, id);
    assert es + [] == es;
    SettlesSame(es + Added(b, s, id, policy));
    match s {
      case Push(i, cb) => if i in b.tracking { PushEvents(b, i, cb, id); }
      case RunReady => ReadyEvents(b, id);
      case ResumeSubmit(i, grid, ibId) => if i < |b.inflight| { ResumeEvents(b, i, grid, ibId, policy, id); }
      case PutNotice => QueuedSnoc(b.puts, Notice, id);
      case _ =>
    }
  }

  // ---- Preservation ----------------------------------------------------------------

  lemma StepRegistered(b: Broker, s: Step, policy: RoundingPolicy)
    requires Registered(b)
    ensures Registered(Next(b, s, policy))
  {
    match s {
      case Push(i, cb) => if i in b.tracking { HandleFaithful(b.tracking[i], cb); }
      case ResumeSubmit(i, grid, ibId) => if i < |b.inflight| { SnapKeepsOrder(b.inflight[i], grid, policy); }
      case _ =>
    }
  }

  lemma StepReadyOk(b: Broker, s: Step, policy: RoundingPolicy, id: OrderId)
    requires OrderOk(b, id)
    ensures ReadyOk(Next(b, s, policy), id)
  {
    match s {
      case Push(i, cb) => if i in b.tracking { PushReadyOk(b, i, cb, id); }
      case RunReady => RunReadyOk(b, id);
      case ResumeSubmit(i, grid, ibId) => if i < |b.inflight| { ResumeReadyOk(b, i, grid, ibId, policy, id); }
      case _ =>
    }
  }

  lemma ResumeReadyOk(b: Broker, i: nat, grid: Option<seq<Band>>, ibId: int, policy: RoundingPolicy, id: OrderId)
    requires OrderOk(b, id) && i < |b.inflight|
    ensures ReadyOk(Resume(b, i, grid, ibId, policy), id)
  {
    SnapKeepsOrder(b.inflight[i], grid, policy);
    assert LiveAt(b, i, id) <==> b.inflight[i].id == id && !Inert(b.inflight[i]);
  }

  lemma PushReadyOk(b: Broker, i: OrderId, cb: Callback, id: OrderId)
    requires ReadyOk(b, id) && i in b.tracking && i in b.trades
    ensures ReadyOk(OnPush(b, i, cb), id)
  {
    var added := Tasks(b.tracking[i], i, cb);
    assert forall t :: t in added ==> TaskId(t) == i;
    assert b.tracking[i].terminal ==> added == [];
    assert |added| > 1 ==> forall t :: t in added ==> t.PutTask?;
    assert forall t :: t in added && t.RejectTask? ==> Handle(b.tracking[i], cb).0.terminal;
  }

  lemma RunReadyOk(b: Broker, id: OrderId)
    requires ReadyOk(b, id)
    ensures ReadyOk(OnReady(b), id)
  {
    if b.ready != [] {
      var r, r' := b.ready, OnReady(b).ready;
      assert r[0] in r && forall j :: 0 <= j < |r| - 1 ==> r'[j] == r[j + 1];
      assert forall t :: t in r' ==> t in r[1..] || (r[0].RejectTask? && t.RejectTask? && t.id == r[0].id);
      assert forall t :: t in r[1..] ==> t in r;
    }
  }

  lemma StepFlightOk(b: Broker, s: Step, policy: RoundingPolicy, id: OrderId)
    requires OrderOk(b, id) && FreshStep(b, s, id)
    ensures FlightOk(Next(b, s, policy), id)
  {
    StepEvents(b, s, policy, id);
    assert EventsOf(b, id) + [] == EventsOf(b, id);
    match s {
      case BeginSubmit(o) => if o.id !in b.trades { BeginFlightOk(b, o, id); }
      case ResumeSubmit(i, grid, ibId) => if i < |b.inflight| { ResumeFlightOk(b, i, grid, ibId, policy, id); }
      case _ => assert SameFlight(b, Next(b, s, policy), id);
    }
  }

  /** Nothing in progress changed. */
  ghost predicate SameFlight(b: Broker, b': Broker, id: OrderId) {
    b'.inflight == b.inflight && forall i :: 0 <= i < |b.inflight| ==> (LiveAt(b', i, id) <==> LiveAt(b, i, id))
  }

  lemma BeginFlightOk(b: Broker, o: Order, id: OrderId)
    requires FlightOk(b, id) && Registered(b) && o.id !in b.trades
    requires o.id == id ==> Inert(o) || FreshBegin(b, id)
    ensures FlightOk(b.(inflight := b.inflight + [o]), id)
  {
    var b', n := b.(inflight := b.inflight + [o]), |b.inflight|;
    forall i | 0 <= i < n
      ensures LiveAt(b', i, id) <==> LiveAt(b, i, id)
    {
    }
    assert LiveAt(b', n, id) <==> o.id == id && !Inert(o);
    if InFlight(b', id) && !LiveAt(b', n, id) {
      var i :| 0 <= i < |b'.inflight| && LiveAt(b', i, id);
      assert i < n && LiveAt(b, i, id);
    }
    assert LiveAt(b', n, id) ==> forall i :: 0 <= i < n ==> !LiveAt(b', i, id);
  }

  /** Taking one submit out of flight leaves the others. */
  lemma RemoveFlight(b: Broker, i: nat, b': Broker, id: OrderId)
    requires i < |b.inflight| && b'.inflight == b.inflight[..i] + b.inflight[i + 1..]
    ensures forall j :: 0 <= j < |b'.inflight| ==>
              (LiveAt(b', j, id) <==> LiveAt(b, if j < i then j else j + 1, id))
    ensures InFlight(b', id) ==> InFlight(b, id)
  {
    if InFlight(b', id) {
      var j :| 0 <= j < |b'.inflight| && LiveAt(b', j, id);
      assert LiveAt(b, if j < i then j else j + 1, id);
    }
  }

  lemma ResumeFlightOk(b: Broker, i: nat, grid: Option<seq<Band>>, ibId: int, policy: RoundingPolicy, id: OrderId)
    requires OrderOk(b, id) && i < |b.inflight|
    requires Settles(EventsOf(b, id) + Added(b, ResumeSubmit(i, grid, ibId), id, policy),
                     EventsOf(Resume(b, i, grid, ibId, policy), id))
    ensures FlightOk(Resume(b, i, grid, ibId, policy), id)
  {
    var b' := Resume(b, i, grid, ibId, policy);
    RemoveFlight(b, i, b', id);
    OnlyOneFlies(b, i, b', id);
    if !LiveAt(b, i, id) {
      OtherUntouched(b, ResumeSubmit(i, grid, ibId), policy, id);
      assert EventsOf(b, id) + [] == EventsOf(b, id);
    }
  }

  lemma OnlyOneFlies(b: Broker, i: nat, b': Broker, id: OrderId)
    requires FlightOk(b, id) && i < |b.inflight| && b'.inflight == b.inflight[..i] + b.inflight[i + 1..]
    ensures LiveAt(b, i, id) ==> !InFlight(b', id)
    ensures forall j, k :: 0 <= j < k < |b'.inflight| ==> !(LiveAt(b', j, id) && LiveAt(b', k, id))
  {
    forall j | 0 <= j < |b'.inflight|
      ensures LiveAt(b', j, id) <==> LiveAt(b, if j < i then j else j + 1, id)
    {
    }
  }

  // ---- Projection ----------------------------------------------------------

  /** The events of `id`, queued and scheduled, are those of its own machine on its own callbacks. */
  ghost predicate Projects(b: Broker, id: OrderId, cbs: seq<Callback>) {
    if id in b.tracking then
      && b.tracking[id] == Track(NewTracking(b.tracking[id].order), cbs)
      && Realises(EventsOf(b, id), Spec(b.tracking[id].order, cbs))
    else
      cbs == [] && (EventsOf(b, id) == [] || EventsOf(b, id) == [UNPLACED])
  }

  lemma PushProjects(b: Broker, cb: Callback, id: OrderId, cbs: seq<Callback>)
    requires id in b.tracking && id in b.trades && Projects(b, id, cbs)
    ensures Projects(OnPush(b, id, cb), id, cbs + [cb])
  {
    var t0 := NewTracking(b.tracking[id].order);
    PushEvents(b, id, cb, id);
    HandleFaithful(b.tracking[id], cb);
    TrackSnoc(t0, cbs, cb);
    var head := [Plain(EvSubmitted, None)];
    RealisesAppend(EventsOf(b, id), head + Emissions(t0, cbs), Handle(b.tracking[id], cb).1);
    assert head + Emissions(t0, cbs) + Handle(b.tracking[id], cb).1 == head + Emissions(t0, cbs + [cb]);
  }

  lemma ResumeProjects(b: Broker, s: Step, policy: RoundingPolicy, id: OrderId, cbs: seq<Callback>)
    requires OrderOk(b, id) && Projects(b, id, cbs)
    requires s.ResumeSubmit? && s.index < |b.inflight| && LiveAt(b, s.index, id)
    ensures Projects(Next(b, s, policy), id, cbs)
  {
    ResumeEvents(b, s.index, s.grid, s.ibId, policy, id);
    SnapKeepsOrder(b.inflight[s.index], s.grid, policy);
    assert EventsOf(b, id) == [] && cbs == [];
    assert [] + Added(b, s, id, policy) == Added(b, s, id, policy);
    var b' := Next(b, s, policy);
    if id in b'.tracking {
      UnpushedSpec(b'.tracking[id].order);
    }
  }

  lemma UnpushedSpec(o: Order)
    ensures Spec(o, []) == [Plain(EvSubmitted, None)] && Track(NewTracking(o), []) == NewTracking(o)
  {
    assert Emissions(NewTracking(o), []) == [];
  }

  lemma OtherProjects(b: Broker, s: Step, policy: RoundingPolicy, id: OrderId, cbs: seq<Callback>)
    requires OrderOk(b, id) && Projects(b, id, cbs)
    requires s.Push? && s.id in b.tracking ==> s.id != id
    requires s.ResumeSubmit? && s.index < |b.inflight| ==> !LiveAt(b, s.index, id)
    ensures Projects(Next(b, s, policy), id, cbs)
  {
    StepEvents(b, s, policy, id);
    OtherUntouched(b, s, policy, id);
    assert EventsOf(b, id) + [] == EventsOf(b, id);
    if id in b.tracking {
      var t0 := NewTracking(b.tracking[id].order);
      RealisesSettled(EventsOf(b, id), EventsOf(Next(b, s, policy), id),
                      [Plain(EvSubmitted, None)] + Emissions(t0, cbs));
    }
  }

  /** A step about other orders leaves this one's tracking alone and adds no event of it. */
  lemma OtherUntouched(b: Broker, s: Step, policy: RoundingPolicy, id: OrderId)
    requires Registered(b)
    requires s.Push? && s.id in b.tracking ==> s.id != id
    requires s.ResumeSubmit? && s.index < |b.inflight| ==> !LiveAt(b, s.index, id)
    ensures var b' := Next(b, s, policy);
            && (id in b'.tracking <==> id in b.tracking) && (id in b.tracking ==> b'.tracking[id] == b.tracking[id])
            && Added(b, s, id, policy) == []
  {
    if s.ResumeSubmit? && s.index < |b.inflight| {
      SnapKeepsOrder(b.inflight[s.index], s.grid, policy);
    }
  }

  lemma StepProjects(b: Broker, s: Step, policy: RoundingPolicy, id: OrderId, cbs: seq<Callback>)
    requires OrderOk(b, id) && Projects(b, id, cbs)
    ensures Projects(Next(b, s, policy), id, cbs + if s.Push? && s.id == id && id in b.tracking then [s.cb] else [])
  {
    assert cbs + [] == cbs;
    if s.Push? && s.id == id && id in b.tracking {
      PushProjects(b, s.cb, id, cbs);
    } else if s.ResumeSubmit? && s.index < |b.inflight| && LiveAt(b, s.index, id) {
      ResumeProjects(b, s, policy, id, cbs);
    } else {
      OtherProjects(b, s, policy, id, cbs);
    }
  }

  /** In every run, whatever other ids do: an order whose own submits all began fresh is registered
      consistently, has nothing behind its deferred reject, and at most one live submit in progress. */
  lemma {:induction false} RunKeepsInvariant(steps: seq<Step>, policy: RoundingPolicy, id: OrderId)
    requires FreshFor(steps, policy, id)
    ensures OrderOk(Exec(steps, policy), id)
  {
    if steps != [] {
      var init, s := steps[..|steps| - 1], steps[|steps| - 1];
      RunKeepsInvariant(init, policy, id);
      var b := Exec(init, policy);
      StepRegistered(b, s, policy);
      StepReadyOk(b, s, policy, id);
      StepFlightOk(b, s, policy, id);
    }
  }

  /** Any run, any interleaving: the broker refines one sequential machine per freshly submitted order. */
  lemma {:induction false} RunProjects(steps: seq<Step>, policy: RoundingPolicy, id: OrderId)
    requires FreshFor(steps, policy, id)
    ensures Projects(Exec(steps, policy), id, CallbacksTo(steps, id, policy))
  {
    if steps != [] {
      var init, s := steps[..|steps| - 1], steps[|steps| - 1];
      RunProjects(init, policy, id);
      RunKeepsInvariant(init, policy, id);
      StepProjects(Exec(init, policy), s, policy, id, CallbacksTo(init, id, policy));
    }
  }
}
