/** Main results on runs of the IB broker. */
module IBBrokerTheorems {
  import opened Domain
  import opened EventQueue
  import opened OrderFsm
  import opened OrderTracking
  import opened PriceGrid
  import opened IBBrokerModel
  import opened IBBrokerRuns

  // ---- Traces ------------------------------------------------------------------

  /** None, a lone REJECTED, or SUBMITTED, ACCEPTED?, fills, terminal?. */
  ghost predicate GoodTrace(ks: seq<EventKind>) {
    ks == [] || ks == [EvRejected] || Shape(ks)
  }

  /** In every run that submits the id freshly, whatever other ids do: its events are none, a single
      REJECTED of an unplaced order, or a trace SUBMITTED, ACCEPTED?, fills, terminal?. They are a run of the
      declared machine exactly unless an accepted live order was pushed `Inactive`; as far as queued, exactly
      unless its REJECTED is queued too. */
  lemma EveryOrderTrace(steps: seq<Step>, policy: RoundingPolicy, id: OrderId)
    requires FreshFor(steps, policy, id)
    ensures var b := Exec(steps, policy);
            var ks, queued := Kinds(EventsOf(b, id)), EventKinds(Own(b.puts, id));
            var rejectsLive := id in b.tracking &&
                               RejectsLiveOrder(b.tracking[id].order, CallbacksTo(steps, id, policy));
            && (if id in b.tracking then Shape(ks) else ks == [] || ks == [EvRejected])
            && (IsRun(ks) <==> !rejectsLive)
            && (IsRun(queued) <==> !(rejectsLive && queued == ks))
            && queued <= ks
  {
    var b := Exec(steps, policy);
    RunProjects(steps, policy, id);
    QueuedPrefix(b, id);
    var queued := EventKinds(Own(b.puts, id));
    if id in b.tracking {
      var order, cbs := b.tracking[id].order, CallbacksTo(steps, id, policy);
      RealisedKinds(EventsOf(b, id), Spec(order, cbs));
      PlacedTrace(order, cbs, queued);
    } else {
      UnplacedTrace(EventsOf(b, id), queued);
    }
  }

  lemma PlacedTrace(order: Order, cbs: seq<Callback>, queued: seq<EventKind>)
    requires queued <= Trace(order, cbs)
    ensures var ks, rejectsLive := Trace(order, cbs), RejectsLiveOrder(order, cbs);
            && Shape(ks) && (IsRun(ks) <==> !rejectsLive) && (IsRun(queued) <==> !(rejectsLive && queued == ks))
  {
    TraceHasShape(order, cbs);
    TraceIsRunIff(order, cbs);
    if RejectsLiveOrder(order, cbs) {
      LiveRejectIsLast(order, cbs);
      PrefixIsRun(queued, Trace(order, cbs));
    } else {
      QueuedIsRun(queued, Trace(order, cbs));
    }
  }

  lemma UnplacedTrace(es: seq<Emission>, queued: seq<EventKind>)
    requires (es == [] || es == [UNPLACED]) && queued <= Kinds(es)
    ensures (Kinds(es) == [] || Kinds(es) == [EvRejected]) && IsRun(Kinds(es)) && IsRun(queued)
  {
    UnplacedIsRun();
    assert Kinds([UNPLACED]) == [EvRejected];
    QueuedIsRun(queued, Kinds(es));
  }

  lemma RealisedKinds(actual: seq<Emission>, spec: seq<Emission>)
    requires Realises(actual, spec)
    ensures Kinds(actual) == Kinds(spec)
  {
    forall i | 0 <= i < |spec|
      ensures Kinds(actual)[i] == Kinds(spec)[i]
    {
    }
  }

  lemma QueuedPrefix(b: Broker, id: OrderId)
    ensures EventKinds(Own(b.puts, id)) <= Kinds(EventsOf(b, id))
  {
    var own := Own(b.puts, id);
    assert Kinds(EventsOf(b, id)) == Kinds(AllEmitted(own)) + Kinds(Waiting(b.ready, id));
    assert Kinds(AllEmitted(own)) == EventKinds(own);
  }

  lemma QueuedIsRun(queued: seq<EventKind>, ks: seq<EventKind>)
    requires queued <= ks && IsRun(ks)
    ensures IsRun(queued)
  {
    RunIffAfter(ks);
    RunIffAfter(queued);
    assert ks == queued + ks[|queued|..];
    AfterPrefix(queued, ks[|queued|..]);
  }

  lemma PrefixIsRun(queued: seq<EventKind>, ks: seq<EventKind>)
    requires queued <= ks && ks != [] && After(ks[..|ks| - 1]).Some?
    ensures queued != ks ==> IsRun(queued)
  {
    if queued != ks {
      RunIffAfter(ks[..|ks| - 1]);
      QueuedIsRun(queued, ks[..|ks| - 1]);
    }
  }

  lemma UnplacedIsRun()
    ensures IsRun([]) && IsRun([EvRejected])
  {
    AfterSnoc([], EvRejected);
    assert [] + [EvRejected] == [EvRejected];
    RunIffAfter([]);
    RunIffAfter([EvRejected]);
  }

  lemma ExecSnoc(steps: seq<Step>, s: Step, policy: RoundingPolicy)
    ensures Exec(steps + [s], policy) == Next(Exec(steps, policy), s, policy)
    ensures forall id :: FreshFor(steps + [s], policy, id) <==>
              FreshFor(steps, policy, id) && FreshStep(Exec(steps, policy), s, id)
  {
    var all := steps + [s];
    assert all[..|all| - 1] == steps;
  }

  // ---- When a submit is safe -----------------------------------------------------

  predicate NoBegin(more: seq<Step>, id: OrderId) {
    forall s :: s in more ==> !(s.BeginSubmit? && s.order.id == id)
  }

  lemma {:induction false} FreshExtends(steps: seq<Step>, more: seq<Step>, policy: RoundingPolicy, id: OrderId)
    requires FreshFor(steps, policy, id) && NoBegin(more, id)
    ensures FreshFor(steps + more, policy, id)
  {
    if more == [] {
      assert steps + more == steps;
    } else {
      var m0, s := more[..|more| - 1], more[|more| - 1];
      assert s in more && steps + more == (steps + m0) + [s];
      FreshExtends(steps, m0, policy, id);
      ExecSnoc(steps + m0, s, policy);
    }
  }

  /** The exact condition for submitting an id: after a run that submitted it freshly, beginning to submit a
      valid, supported order keeps its events a good trace in every continuation that does not begin it again
      if and only if it is refused as a duplicate, or no event of it was announced and no live submit of it is
      in progress. */
  lemma FreshIff(steps: seq<Step>, policy: RoundingPolicy, o: Order)
    requires FreshFor(steps, policy, o.id) && !Inert(o)
    ensures FreshBegin(Exec(steps, policy), o.id) <==>
            forall more :: NoBegin(more, o.id) ==> GoodAfter(steps, o, more, policy)
  {
    var begun := steps + [BeginSubmit(o)];
    ExecSnoc(steps, BeginSubmit(o), policy);
    if FreshBegin(Exec(steps, policy), o.id) {
      forall more | NoBegin(more, o.id)
        ensures GoodAfter(steps, o, more, policy)
      {
        FreshExtends(begun, more, policy, o.id);
        EveryOrderTrace(begun + more, policy, o.id);
      }
    } else {
      var more := StaleWitness(steps, policy, o);
    }
  }

  /** The order's events after beginning to submit it and going on with `more`. */
  ghost predicate GoodAfter(steps: seq<Step>, o: Order, more: seq<Step>, policy: RoundingPolicy) {
    GoodTrace(Kinds(EventsOf(Exec(steps + [BeginSubmit(o)] + more, policy), o.id)))
  }

  lemma StaleWitness(steps: seq<Step>, policy: RoundingPolicy, o: Order) returns (more: seq<Step>)
    requires FreshFor(steps, policy, o.id) && !Inert(o) && !FreshBegin(Exec(steps, policy), o.id)
    ensures NoBegin(more, o.id) && !GoodAfter(steps, o, more, policy)
  {
    var b, begun := Exec(steps, policy), steps + [BeginSubmit(o)];
    RunKeepsInvariant(steps, policy, o.id);
    RunProjects(steps, policy, o.id);
    ExecSnoc(steps, BeginSubmit(o), policy);
    if !InFlight(b, o.id) {
      var r := PlacedAgain(b, o, policy);
      more := [r];
      ExecSnoc(begun, r, policy);
    } else {
      var r0, r1 := PlacedTwice(b, o, policy);
      more := [r0] + [r1];
      ExecSnoc(begun, r0, policy);
      ExecSnoc(begun + [r0], r1, policy);
      assert begun + more == begun + [r0] + [r1];
    }
  }

  /** Submitting an id again after its REJECTED places it after all. */
  lemma PlacedAgain(b: Broker, o: Order, policy: RoundingPolicy) returns (r: Step)
    requires OrderOk(b, o.id) && o.id !in b.trades && !Inert(o) && EventsOf(b, o.id) == [UNPLACED]
    ensures r.ResumeSubmit? && !GoodTrace(Kinds(EventsOf(Next(Next(b, BeginSubmit(o), policy), r, policy), o.id)))
  {
    var grid := SnapsSomewhere(o, policy);
    var b1, n := b.(inflight := b.inflight + [o]), |b.inflight|;
    r := ResumeSubmit(n, grid, 1);
    assert EventsOf(b1, o.id) == [UNPLACED];
    PlaceAnnounces(b1, n, grid, 1, policy);
    assert Kinds([UNPLACED] + [Plain(EvSubmitted, None)]) == [EvRejected, EvSubmitted];
  }

  /** Submitting an id while a live submit of it is in progress can place it twice. */
  lemma PlacedTwice(b: Broker, o: Order, policy: RoundingPolicy) returns (r0: Step, r1: Step)
    requires OrderOk(b, o.id) && o.id !in b.trades && !Inert(o) && InFlight(b, o.id)
    ensures r0.ResumeSubmit? && r1.ResumeSubmit?
    ensures var b2 := Next(Next(Next(b, BeginSubmit(o), policy), r0, policy), r1, policy);
            !GoodTrace(Kinds(EventsOf(b2, o.id)))
  {
    var j := LiveSubmit(b, o.id);
    BeginAppends(b, o, policy, j);
    r0, r1 := BothResumed(Next(b, BeginSubmit(o), policy), j, policy);
  }

  lemma BothResumed(b: Broker, j: nat, policy: RoundingPolicy) returns (r0: Step, r1: Step)
    requires |b.inflight| >= 2 && j < |b.inflight| - 1
    requires var o, last := b.inflight[j], b.inflight[|b.inflight| - 1];
             && last.id == o.id && !Inert(o) && !Inert(last) && EventsOf(b, o.id) == []
             && forall t :: t in b.ready ==> TaskId(t) != o.id
    ensures r0.ResumeSubmit? && r1.ResumeSubmit?
    ensures !GoodTrace(Kinds(EventsOf(Next(Next(b, r0, policy), r1, policy), b.inflight[j].id)))
  {
    var n := |b.inflight|;
    var grid0 := SnapsSomewhere(b.inflight[j], policy);
    var grid1 := SnapsSomewhere(b.inflight[n - 1], policy);
    r0, r1 := ResumeSubmit(j, grid0, 1), ResumeSubmit(n - 2, grid1, 2);
    BothPlaced(b, j, grid0, grid1, policy, r0, r1);
  }

  lemma LiveSubmit(b: Broker, id: OrderId) returns (j: nat)
    requires OrderOk(b, id) && id !in b.trades && InFlight(b, id)
    ensures j < |b.inflight| && b.inflight[j].id == id && !Inert(b.inflight[j])
    ensures EventsOf(b, id) == [] && forall t :: t in b.ready ==> TaskId(t) != id
  {
    j :| 0 <= j < |b.inflight| && LiveAt(b, j, id);
  }

  lemma BeginAppends(b: Broker, o: Order, policy: RoundingPolicy, j: nat)
    requires o.id !in b.trades && j < |b.inflight|
    ensures var b1 := Next(b, BeginSubmit(o), policy);
            && b1.inflight == b.inflight + [o] && b1.inflight[j] == b.inflight[j] && b1.ready == b.ready
            && EventsOf(b1, o.id) == EventsOf(b, o.id)
  {
  }

  lemma BothPlaced(b: Broker, j: nat, grid0: Option<seq<Band>>, grid1: Option<seq<Band>>, policy: RoundingPolicy,
                   r0: Step, r1: Step)
    requires |b.inflight| >= 2 && j < |b.inflight| - 1
    requires var o, last := b.inflight[j], b.inflight[|b.inflight| - 1];
             && last.id == o.id && !Inert(o) && !Inert(last) && EventsOf(b, o.id) == []
             && SnapOrder(o, grid0, policy).Ok? && SnapOrder(last, grid1, policy).Ok?
             && forall t :: t in b.ready ==> TaskId(t) != o.id
    requires r0 == ResumeSubmit(j, grid0, 1) && r1 == ResumeSubmit(|b.inflight| - 2, grid1, 2)
    ensures !GoodTrace(Kinds(EventsOf(Next(Next(b, r0, policy), r1, policy), b.inflight[j].id)))
  {
    PlaceAnnounces(b, j, grid0, 1, policy);
    var b1 := Next(b, r0, policy);
    assert b1.inflight[|b.inflight| - 2] == b.inflight[|b.inflight| - 1];
    PlaceAnnounces(b1, |b.inflight| - 2, grid1, 2, policy);
    TwiceSubmitted();
  }

  lemma TwiceSubmitted()
    ensures Kinds([] + [Plain(EvSubmitted, None)] + [Plain(EvSubmitted, None)]) == [EvSubmitted, EvSubmitted]
    ensures !GoodTrace([EvSubmitted, EvSubmitted])
  {
  }

  /** Resuming a live submit on a grid it snaps to places and announces it, duplicate or not. */
  lemma PlaceAnnounces(b: Broker, i: nat, grid: Option<seq<Band>>, ibId: int, policy: RoundingPolicy)
    requires i < |b.inflight| && !Inert(b.inflight[i]) && SnapOrder(b.inflight[i], grid, policy).Ok?
    requires forall t :: t in b.ready ==> TaskId(t) != b.inflight[i].id
    ensures var b', id := Next(b, ResumeSubmit(i, grid, ibId), policy), b.inflight[i].id;
            && EventsOf(b', id) == EventsOf(b, id) + [Plain(EvSubmitted, None)]
            && b'.ready == b.ready && b'.inflight == b.inflight[..i] + b.inflight[i + 1..]
  {
    SnapKeepsOrder(b.inflight[i], grid, policy);
    PutEvents(b, OrderEvent(b.inflight[i].id, EvSubmitted, NoReason, None), b.inflight[i].id);
  }

  /** Every valid order snaps on some grid: one whose tick is its own lowest price. */
  lemma SnapsSomewhere(o: Order, policy: RoundingPolicy) returns (grid: Option<seq<Band>>)
    requires ValidOrder(o)
    ensures SnapOrder(o, grid, policy).Ok?
  {
    if !Priced(o) {
      grid := None;
    } else {
      var tick := if o.limitPrice.None? then o.stopPrice.value
                  else if o.stopPrice.None? || o.limitPrice.value <= o.stopPrice.value then o.limitPrice.value
                  else o.stopPrice.value;
      grid := Some([Band(0.0, tick, tick)]);
      OneTickGrid(tick);
      if o.limitPrice.Some? { SnapsAboveZero(tick, o.limitPrice.value, o.side, policy); }
      if o.stopPrice.Some? { SnapsAboveZero(tick, o.stopPrice.value, o.side, policy); }
    }
  }

  lemma OneTickGrid(tick: real)
    requires tick > 0.0
    ensures Grid([Band(0.0, tick, tick)]) && Legal([Band(0.0, tick, tick)], tick)
  {
    var b := Band(0.0, tick, tick);
    assert 0.0 == Times(0, tick) && tick == Times(1, tick);
    assert Multiple(0.0, tick) && Multiple(tick, tick);
    assert Governing([b], tick) == b;
  }

  lemma SnapsAboveZero(tick: real, price: real, side: OrderSide, policy: RoundingPolicy)
    requires 0.0 < tick <= price
    ensures Snapped([Band(0.0, tick, tick)], price, side, policy) > 0.0
  {
    OneTickGrid(tick);
    SnapPicksLegalPrice([Band(0.0, tick, tick)], price, side, policy);
  }

  /** Two submits of one id that both pass the duplicate check before either registers are both placed and
      both announced. */
  lemma ConcurrentDuplicateSubmits(o: Order, policy: RoundingPolicy)
    requires ValidOrder(o) && o.orderType == Mkt
    ensures var steps := [BeginSubmit(o), BeginSubmit(o), ResumeSubmit(0, None, 1), ResumeSubmit(0, None, 2)];
            && !FreshFor(steps, policy, o.id)
            && Kinds(EventsOf(Exec(steps, policy), o.id)) == [EvSubmitted, EvSubmitted]
            && !IsRun([EvSubmitted, EvSubmitted])
  {
    var a, r1, r2 := BeginSubmit(o), ResumeSubmit(0, None, 1), ResumeSubmit(0, None, 2);
    FourSteps(a, a, r1, r2, policy);
    var b2 := FRESH.(inflight := [o] + [o]);
    assert Next(Next(FRESH, a, policy), a, policy) == b2;
    assert EventsOf(b2, o.id) == [];
    PlaceAnnounces(b2, 0, None, 1, policy);
    PlaceAnnounces(Next(b2, r1, policy), 0, None, 2, policy);
    TwiceSubmitted();
    BadTrace([a, a, r1, r2], policy, o.id);
    DoubleSubmittedIllegal();
  }

  /** One submit after the other is no better: an order rejected for want of a grid, submitted again under
      its id with one, is placed after its REJECTED. */
  lemma ResubmittedAfterReject(o: Order, policy: RoundingPolicy) returns (grid: Option<seq<Band>>)
    requires ValidOrder(o) && Priced(o)
    ensures var steps := [BeginSubmit(o), ResumeSubmit(0, None, 1), BeginSubmit(o), ResumeSubmit(0, grid, 2)];
            && !FreshFor(steps, policy, o.id)
            && Kinds(EventsOf(Exec(steps, policy), o.id)) == [EvRejected, EvSubmitted]
            && !IsRun([EvRejected, EvSubmitted])
  {
    grid := SnapsSomewhere(o, policy);
    var a, r1, r2 := BeginSubmit(o), ResumeSubmit(0, None, 1), ResumeSubmit(0, grid, 2);
    FourSteps(a, r1, a, r2, policy);
    RejectedOnce(o, policy);
    var b3 := Next(Next(Next(FRESH, a, policy), r1, policy), a, policy);
    PlacedAfterReject(b3, grid, policy);
    BadTrace([a, r1, a, r2], policy, o.id);
    SubmittedAfterReject();
  }

  lemma PlacedAfterReject(b: Broker, grid: Option<seq<Band>>, policy: RoundingPolicy)
    requires |b.inflight| == 1 && b.ready == [] && EventsOf(b, b.inflight[0].id) == [UNPLACED]
    requires !Inert(b.inflight[0]) && SnapOrder(b.inflight[0], grid, policy).Ok?
    ensures Kinds(EventsOf(Next(b, ResumeSubmit(0, grid, 2), policy), b.inflight[0].id)) == [EvRejected, EvSubmitted]
  {
    PlaceAnnounces(b, 0, grid, 2, policy);
    assert Kinds([UNPLACED] + [Plain(EvSubmitted, None)]) == [EvRejected, EvSubmitted];
  }

  lemma RejectedOnce(o: Order, policy: RoundingPolicy)
    requires ValidOrder(o) && Priced(o)
    ensures var b3 := Next(Next(Next(FRESH, BeginSubmit(o), policy), ResumeSubmit(0, None, 1), policy),
                           BeginSubmit(o), policy);
            b3.inflight == [o] && b3.ready == [] && EventsOf(b3, o.id) == [UNPLACED]
  {
    var b1 := Next(FRESH, BeginSubmit(o), policy);
    assert b1.inflight == [o] && EventsOf(b1, o.id) == [];
    PutEvents(b1, OrderEvent(o.id, EvRejected, PriceRuleUnavailable, None), o.id);
    assert [] + [UNPLACED] == [UNPLACED];
    var b2 := Next(b1, ResumeSubmit(0, None, 1), policy);
    assert b2.inflight == [] && [] + [o] == [o];
  }

  lemma SubmittedAfterReject()
    ensures !IsRun([EvRejected, EvSubmitted])
  {
    AfterSnoc([], EvRejected);
    AfterSnoc([EvRejected], EvSubmitted);
    assert [] + [EvRejected] == [EvRejected] && [EvRejected] + [EvSubmitted] == [EvRejected, EvSubmitted];
    RunIffAfter([EvRejected, EvSubmitted]);
  }

  lemma BadTrace(steps: seq<Step>, policy: RoundingPolicy, id: OrderId)
    requires !GoodTrace(Kinds(EventsOf(Exec(steps, policy), id)))
    ensures !FreshFor(steps, policy, id)
  {
    if FreshFor(steps, policy, id) {
      EveryOrderTrace(steps, policy, id);
    }
  }

  lemma FourSteps(s1: Step, s2: Step, s3: Step, s4: Step, policy: RoundingPolicy)
    ensures Exec([s1, s2, s3, s4], policy) ==
            Next(Next(Next(Next(FRESH, s1, policy), s2, policy), s3, policy), s4, policy)
  {
    assert Exec([], policy) == FRESH;
    ExecSnoc([], s1, policy);
    ExecSnoc([s1], s2, policy);
    ExecSnoc([s1, s2], s3, policy);
    ExecSnoc([s1, s2, s3], s4, policy);
    assert [] + [s1] == [s1] && [s1] + [s2] == [s1, s2];
    assert [s1, s2] + [s3] == [s1, s2, s3] && [s1, s2, s3] + [s4] == [s1, s2, s3, s4];
  }

  lemma DoubleSubmittedIllegal()
    ensures !IsRun([EvSubmitted, EvSubmitted])
  {
    AfterSnoc([], EvSubmitted);
    AfterSnoc([EvSubmitted], EvSubmitted);
    assert [] + [EvSubmitted] == [EvSubmitted] && [EvSubmitted] + [EvSubmitted] == [EvSubmitted, EvSubmitted];
    RunIffAfter([EvSubmitted, EvSubmitted]);
  }

  // ---- Prices on the wire --------------------------------------------------

  ghost predicate OnGrid(price: Option<real>, t: seq<Band>)
    requires t != []
  {
    price.Some? ==> price.value > 0.0 && Legal(t, price.value)
  }

  /** Placed orders are sound; priced ones carry legal prices of the grid they were snapped to. */
  ghost predicate WireOk(p: Placement) {
    && ValidOrder(p.order) && Supported(p.order.orderType)
    && (Priced(p.order) ==>
          p.grid.Some? && p.grid.value != [] &&
          (Grid(p.grid.value) ==> OnGrid(p.order.limitPrice, p.grid.value) && OnGrid(p.order.stopPrice, p.grid.value)))
  }

  lemma SnapOrderOnGrid(o: Order, grid: Option<seq<Band>>, policy: RoundingPolicy)
    requires SnapOrder(o, grid, policy).Ok? && Supported(o.orderType)
    ensures WireOk(Placement(SnapOrder(o, grid, policy).value, grid))
  {
    if Priced(o) && Grid(grid.value) {
      if o.limitPrice.Some? { SnapPicksLegalPrice(grid.value, o.limitPrice.value, o.side, policy); }
      if o.stopPrice.Some? { SnapPicksLegalPrice(grid.value, o.stopPrice.value, o.side, policy); }
    }
  }

  /** Only on-grid prices reach the wire, in every run. */
  lemma {:induction false} WireStaysOnGrid(steps: seq<Step>, policy: RoundingPolicy)
    ensures forall p :: p in Exec(steps, policy).wire ==> WireOk(p)
  {
    if steps != [] {
      var init, s := steps[..|steps| - 1], steps[|steps| - 1];
      WireStaysOnGrid(init, policy);
      WireStep(Exec(init, policy), s, policy);
    }
  }

  lemma WireStep(b: Broker, s: Step, policy: RoundingPolicy)
    requires forall p :: p in b.wire ==> WireOk(p)
    ensures forall p :: p in Next(b, s, policy).wire ==> WireOk(p)
  {
    if s.ResumeSubmit? && s.index < |b.inflight| {
      var o := b.inflight[s.index];
      SnapKeepsOrder(o, s.grid, policy);
      if SnapOrder(o, s.grid, policy).Ok? && Supported(o.orderType) {
        SnapOrderOnGrid(o, s.grid, policy);
      }
    }
  }

  /** An order that left submission without being placed stays unplaced, and gets no further event, in every
      continuation that does not submit its id again. */
  lemma {:induction false} NeverPlacedLater(steps: seq<Step>, more: seq<Step>, policy: RoundingPolicy, id: OrderId)
    requires FreshFor(steps, policy, id) && NoBegin(more, id)
    requires id !in Exec(steps, policy).tracking && !InFlight(Exec(steps, policy), id)
    ensures id !in Exec(steps + more, policy).tracking && !InFlight(Exec(steps + more, policy), id)
    ensures EventsOf(Exec(steps + more, policy), id) == EventsOf(Exec(steps, policy), id)
  {
    if more == [] {
      assert steps + more == steps;
    } else {
      var m0, s := more[..|more| - 1], more[|more| - 1];
      var init := steps + m0;
      assert s in more && steps + more == init + [s];
      NeverPlacedLater(steps, m0, policy, id);
      FreshExtends(steps, m0, policy, id);
      RunKeepsInvariant(init, policy, id);
      RunProjects(init, policy, id);
      ExecSnoc(init, s, policy);
      UnplacedStep(Exec(init, policy), s, policy, id);
    }
  }

  lemma UnplacedStep(b: Broker, s: Step, policy: RoundingPolicy, id: OrderId)
    requires OrderOk(b, id) && id !in b.tracking && !InFlight(b, id)
    requires EventsOf(b, id) == [] || EventsOf(b, id) == [UNPLACED]
    requires !(s.BeginSubmit? && s.order.id == id)
    ensures id !in Next(b, s, policy).tracking && !InFlight(Next(b, s, policy), id)
    ensures EventsOf(Next(b, s, policy), id) == EventsOf(b, id)
  {
    assert forall i :: 0 <= i < |b.inflight| ==> !LiveAt(b, i, id);
    StepEvents(b, s, policy, id);
    OtherUntouched(b, s, policy, id);
    assert EventsOf(b, id) + [] == EventsOf(b, id);
    var b' := Next(b, s, policy);
    if s.ResumeSubmit? && s.index < |b.inflight| {
      RemoveFlight(b, s.index, b', id);
    } else if s.BeginSubmit? && s.order.id !in b.trades {
      NotBegun(b, s.order, id);
    } else {
      assert b'.inflight == b.inflight;
      assert forall i :: 0 <= i < |b'.inflight| ==> (LiveAt(b', i, id) <==> LiveAt(b, i, id));
    }
  }

  lemma NotBegun(b: Broker, o: Order, id: OrderId)
    requires !InFlight(b, id) && o.id != id
    ensures !InFlight(b.(inflight := b.inflight + [o]), id)
  {
    var b' := b.(inflight := b.inflight + [o]);
    forall i | 0 <= i < |b'.inflight|
      ensures !LiveAt(b', i, id)
    {
      assert i < |b.inflight| ==> !LiveAt(b, i, id);
    }
  }

  /** A priced order with no known grid: one REJECTED, and never placed in any continuation that does not
      submit its id again. */
  lemma NoGridNeverPlaced(steps: seq<Step>, i: nat, ibId: int, more: seq<Step>, policy: RoundingPolicy)
    requires i < |Exec(steps, policy).inflight|
    requires var o := Exec(steps, policy).inflight[i];
             ValidOrder(o) && Priced(o) && FreshFor(steps, policy, o.id) && NoBegin(more, o.id)
    ensures var id := Exec(steps, policy).inflight[i].id;
            var b := Exec(steps + [ResumeSubmit(i, None, ibId)] + more, policy);
            && id !in b.tracking && EventsOf(b, id) == [UNPLACED]
            && (forall p :: p in b.wire ==> p.order.id != id)
  {
    var s, o := ResumeSubmit(i, None, ibId), Exec(steps, policy).inflight[i];
    NoGridStep(steps, i, ibId, policy);
    ExecSnoc(steps, s, policy);
    NeverPlacedLater(steps + [s], more, policy, o.id);
    WireIsTracked(steps + [s] + more, policy);
  }

  lemma NoGridStep(steps: seq<Step>, i: nat, ibId: int, policy: RoundingPolicy)
    requires i < |Exec(steps, policy).inflight|
    requires var o := Exec(steps, policy).inflight[i]; ValidOrder(o) && Priced(o) && FreshFor(steps, policy, o.id)
    ensures var b := Exec(steps, policy);
            var id, b' := b.inflight[i].id, Next(b, ResumeSubmit(i, None, ibId), policy);
            id !in b'.tracking && !InFlight(b', id) && EventsOf(b', id) == [UNPLACED]
  {
    var b := Exec(steps, policy);
    var id, b' := b.inflight[i].id, Next(b, ResumeSubmit(i, None, ibId), policy);
    RunKeepsInvariant(steps, policy, id);
    UnplacedOnce(b, i, ibId, policy);
  }

  lemma UnplacedOnce(b: Broker, i: nat, ibId: int, policy: RoundingPolicy)
    requires i < |b.inflight| && ValidOrder(b.inflight[i]) && Priced(b.inflight[i]) && OrderOk(b, b.inflight[i].id)
    ensures var id, b' := b.inflight[i].id, Resume(b, i, None, ibId, policy);
            id !in b'.tracking && !InFlight(b', id) && EventsOf(b', id) == [UNPLACED]
  {
    var id, b' := b.inflight[i].id, Resume(b, i, None, ibId, policy);
    assert LiveAt(b, i, id);
    ResumeEvents(b, i, None, ibId, policy, id);
    assert [] + [UNPLACED] == [UNPLACED];
    RemoveFlight(b, i, b', id);
    forall j | 0 <= j < |b'.inflight|
      ensures !LiveAt(b', j, id)
    {
      assert j < i ==> !LiveAt(b, j, id);
      assert j >= i ==> !LiveAt(b, j + 1, id);
    }
  }

  lemma {:induction false} WireIsTracked(steps: seq<Step>, policy: RoundingPolicy)
    ensures forall p :: p in Exec(steps, policy).wire ==> p.order.id in Exec(steps, policy).tracking
  {
    if steps != [] {
      WireIsTracked(steps[..|steps| - 1], policy);
      WireTrackedStep(Exec(steps[..|steps| - 1], policy), steps[|steps| - 1], policy);
    }
  }

  lemma WireTrackedStep(b: Broker, s: Step, policy: RoundingPolicy)
    requires forall p :: p in b.wire ==> p.order.id in b.tracking
    ensures forall p :: p in Next(b, s, policy).wire ==> p.order.id in Next(b, s, policy).tracking
  {
    if s.ResumeSubmit? && s.index < |b.inflight| {
      SnapKeepsOrder(b.inflight[s.index], s.grid, policy);
    }
  }

  // ---- Payload discipline --------------------------------------------------

  ghost predicate EventsValid(b: Broker) {
    && (forall q :: q in b.puts && q.OrderItem? ==> ValidEvent(q.event))
    && (forall t :: t in b.ready && t.PutTask? ==> ValidEvent(t.event))
  }

  /** Every event satisfies the checks it is built with: fills on fill events only, a reason on every
      reject and cancel. */
  lemma {:induction false} EventsStayValid(steps: seq<Step>, policy: RoundingPolicy)
    ensures EventsValid(Exec(steps, policy))
  {
    if steps != [] {
      var init, s := steps[..|steps| - 1], steps[|steps| - 1];
      EventsStayValid(init, policy);
      StepValid(Exec(init, policy), s, policy);
    }
  }

  lemma StepValid(b: Broker, s: Step, policy: RoundingPolicy)
    requires EventsValid(b)
    ensures EventsValid(Next(b, s, policy))
  {
    match s {
      case Push(id, cb) =>
        if id in b.tracking { TasksValid(b.tracking[id], id, cb); }
      case RunReady =>
        if b.ready != [] {
          ReadyValid(b);
        }
      case ResumeSubmit(i, grid, ibId) => ResumeValid(b, i, grid, ibId, policy);
      case _ =>
    }
  }

  lemma ReadyValid(b: Broker)
    requires EventsValid(b) && b.ready != []
    ensures EventsValid(OnReady(b))
  {
    assert b.ready[0] in b.ready && forall t :: t in b.ready[1..] ==> t in b.ready;
  }

  lemma ResumeValid(b: Broker, i: nat, grid: Option<seq<Band>>, ibId: int, policy: RoundingPolicy)
    requires EventsValid(b)
    ensures EventsValid(Resume(b, i, grid, ibId, policy))
  {
  }

  lemma TasksValid(t: Tracking, id: OrderId, cb: Callback)
    ensures forall u :: u in Tasks(t, id, cb) && u.PutTask? ==> ValidEvent(u.event)
  {
    HandleFaithful(t, cb);
    var out := Handle(t, cb).1;
    forall i | 0 <= i < |out| && out[i].reason.Some?
      ensures ValidEvent(OrderEvent(id, out[i].kind, out[i].reason.value, out[i].fill))
    {
      assert out[i] in out && Faithful(t.order, Handle(t, cb).0.seen, out[i]);
    }
  }

  // ---- Re-delivery ---------------------------------------------------------------

  /** What two runs that first-delivered the same callbacks agree on: everything but a reason left open. */
  ghost predicate AgreeBut(es: seq<Emission>, es': seq<Emission>, spec: seq<Emission>) {
    && |es| == |es'| == |spec|
    && forall i :: 0 <= i < |spec| ==>
         es'[i] == es[i] || (spec[i].reason.None? && es'[i] == es[i].(reason := es'[i].reason))
  }

  /** The run submitted the order freshly, placed it, and first-delivered these callbacks to it. */
  ghost predicate FirstDelivered(steps: seq<Step>, policy: RoundingPolicy, order: Order, firsts: seq<Callback>) {
    && FreshFor(steps, policy, order.id)
    && order.id in Exec(steps, policy).tracking && Exec(steps, policy).tracking[order.id].order == order
    && Dedup(CallbacksTo(steps, order.id, policy)) == firsts
  }

  lemma RealisesFirsts(steps: seq<Step>, policy: RoundingPolicy, order: Order, firsts: seq<Callback>)
    requires FirstDelivered(steps, policy, order, firsts)
    ensures Realises(EventsOf(Exec(steps, policy), order.id), Spec(order, firsts))
  {
    RunProjects(steps, policy, order.id);
    RedeliveryIgnored(NewTracking(order), CallbacksTo(steps, order.id, policy));
  }

  /** Two runs that placed the same order and first-delivered the same callbacks to it agree on every event of
      it - kind, fill and reason - whatever was re-delivered and however the rest was interleaved; only the
      reason of a final REJECTED that an `Inactive` deferred may differ. */
  lemma RedeliveryInvisible(steps: seq<Step>, steps': seq<Step>, policy: RoundingPolicy, order: Order,
                            firsts: seq<Callback>)
    requires FirstDelivered(steps, policy, order, firsts) && FirstDelivered(steps', policy, order, firsts)
    ensures AgreeBut(EventsOf(Exec(steps, policy), order.id), EventsOf(Exec(steps', policy), order.id),
                     Spec(order, firsts))
    ensures forall i :: 0 <= i < |Spec(order, firsts)| && Spec(order, firsts)[i].reason.None? ==>
              i == |Spec(order, firsts)| - 1 && Spec(order, firsts)[i].kind == EvRejected
  {
    RealisesFirsts(steps, policy, order, firsts);
    RealisesFirsts(steps', policy, order, firsts);
    forall i | 0 <= i < |Spec(order, firsts)| && Spec(order, firsts)[i].reason.None?
      ensures i == |Spec(order, firsts)| - 1 && Spec(order, firsts)[i].kind == EvRejected
    {
      OpenReasonIsLast(order, firsts, i);
    }
  }

  /** The same on the queue: events of the two runs at the same position are equal, but for that reason. */
  lemma RedeliveredEvents(steps: seq<Step>, steps': seq<Step>, policy: RoundingPolicy, order: Order,
                          firsts: seq<Callback>, i: nat)
    requires FirstDelivered(steps, policy, order, firsts) && FirstDelivered(steps', policy, order, firsts)
    requires i < |Own(Exec(steps, policy).puts, order.id)| && i < |Own(Exec(steps', policy).puts, order.id)|
    ensures var e, e' := Own(Exec(steps, policy).puts, order.id)[i], Own(Exec(steps', policy).puts, order.id)[i];
            && i < |Spec(order, firsts)|
            && e'.id == e.id && e'.kind == e.kind && e'.fill == e.fill
            && (e'.reason == e.reason || Spec(order, firsts)[i].reason.None?)
  {
    RedeliveryInvisible(steps, steps', policy, order, firsts);
    var b, b' := Exec(steps, policy), Exec(steps', policy);
    OwnIds(b.puts, order.id);
    OwnIds(b'.puts, order.id);
    assert EventsOf(b, order.id)[i] == Emitted(Own(b.puts, order.id)[i]);
    assert EventsOf(b', order.id)[i] == Emitted(Own(b'.puts, order.id)[i]);
  }

  lemma {:induction false} OwnIds(puts: seq<QueueItem>, id: OrderId)
    ensures forall e :: e in Own(puts, id) ==> e.id == id
  {
    if puts != [] {
      OwnIds(puts[..|puts| - 1], id);
    }
  }

  // ---- The reason of a deferred reject ---------------------------------------------

  /** The coroutine of the order's deferred reject is about to take its last turn. */
  predicate LastTurn(b: Broker, s: Step, id: OrderId) {
    s == RunReady && b.ready != [] && b.ready[0] == RejectTask(id, 0)
  }

  function RejectEvent(b: Broker, id: OrderId): OrderEvent {
    OrderEvent(id, EvRejected, RejectReason(b, id), None)
  }

  /** Over: terminal, and nothing scheduled. */
  ghost predicate Closed(b: Broker, id: OrderId, own: seq<OrderEvent>) {
    id in b.tracking && b.tracking[id].terminal && Own(b.puts, id) == own && Waiting(b.ready, id) == []
  }

  lemma ClosesOnLastTurn(b: Broker, id: OrderId)
    requires OrderOk(b, id) && LastTurn(b, RunReady, id)
    ensures Closed(OnReady(b), id, Own(b.puts, id) + [RejectEvent(b, id)])
  {
    NothingBehindReject(b);
    OwnConcat(b.puts, OrderItem(RejectEvent(b, id)), id);
    assert b.ready[0] in b.ready;
  }

  lemma StaysClosed(b: Broker, s: Step, policy: RoundingPolicy, id: OrderId, own: seq<OrderEvent>)
    requires OrderOk(b, id) && Closed(b, id, own)
    ensures Closed(Next(b, s, policy), id, own)
  {
    match s {
      case Push(i, cb) =>
        if i in b.tracking {
          WaitingTasks(b.tracking[i], i, cb);
          WaitingConcat(b.ready, Tasks(b.tracking[i], i, cb), id);
        }
      case RunReady => ClosedTurn(b, id, own);
      case ResumeSubmit(i, grid, ibId) => if i < |b.inflight| { ClosedResume(b, i, grid, ibId, policy, id, own); }
      case PutNotice => OwnConcat(b.puts, Notice, id);
      case _ =>
    }
  }

  lemma ClosedTurn(b: Broker, id: OrderId, own: seq<OrderEvent>)
    requires Closed(b, id, own)
    ensures Closed(OnReady(b), id, own)
  {
    if b.ready != [] {
      var t, rest := b.ready[0], b.ready[1..];
      assert b.ready == [t] + rest;
      WaitingOne(t, rest, id);
      if t.RejectTask? && t.spins > 0 {
        WaitingOne(RejectTask(t.id, t.spins - 1), rest, id);
      } else {
        var e := if t.PutTask? then t.event else RejectEvent(b, t.id);
        OwnConcat(b.puts, OrderItem(e), id);
      }
    }
  }

  lemma ClosedResume(b: Broker, i: nat, grid: Option<seq<Band>>, ibId: int, policy: RoundingPolicy, id: OrderId,
                     own: seq<OrderEvent>)
    requires OrderOk(b, id) && Closed(b, id, own) && i < |b.inflight|
    ensures Closed(Resume(b, i, grid, ibId, policy), id, own)
  {
    var o := b.inflight[i];
    SnapKeepsOrder(o, grid, policy);
    assert LiveAt(b, i, id) <==> o.id == id && !Inert(o);
    var b' := Resume(b, i, grid, ibId, policy);
    assert b'.ready == b.ready && (id in b.tracking ==> id in b'.tracking && b'.tracking[id] == b.tracking[id]);
    if b'.puts != b.puts {
      var q := b'.puts[|b.puts|];
      assert b'.puts == b.puts + [q] && q.event.id == o.id != id;
      OwnConcat(b.puts, q, id);
    }
  }

  lemma FreshPrefix(steps: seq<Step>, n: nat, policy: RoundingPolicy, id: OrderId)
    requires n <= |steps| && FreshFor(steps, policy, id)
    ensures FreshFor(steps[..n], policy, id)
  {
    if n < |steps| {
      FreshPrefix(steps[..|steps| - 1], n, policy, id);
      assert steps[..|steps| - 1][..n] == steps[..n];
    } else {
      assert steps[..n] == steps;
    }
  }

  /** A deferred REJECTED says what its coroutine reads on its last turn, and is the order's last event. */
  lemma {:induction false} DeferredDecided(steps: seq<Step>, n: nat, policy: RoundingPolicy, id: OrderId)
    requires FreshFor(steps, policy, id) && n < |steps| && LastTurn(Exec(steps[..n], policy), steps[n], id)
    ensures var b := Exec(steps[..n], policy);
            Closed(Exec(steps, policy), id, Own(b.puts, id) + [RejectEvent(b, id)])
  {
    var init, b := steps[..|steps| - 1], Exec(steps[..n], policy);
    if n == |init| {
      assert steps[..n] == init;
      RunKeepsInvariant(init, policy, id);
      ClosesOnLastTurn(b, id);
    } else {
      assert init[..n] == steps[..n] && init[n] == steps[n];
      DeferredDecided(init, n, policy, id);
      ClosedOn(steps, policy, id, Own(b.puts, id) + [RejectEvent(b, id)]);
    }
  }

  lemma ClosedOn(steps: seq<Step>, policy: RoundingPolicy, id: OrderId, own: seq<OrderEvent>)
    requires steps != [] && FreshFor(steps, policy, id) && Closed(Exec(steps[..|steps| - 1], policy), id, own)
    ensures Closed(Exec(steps, policy), id, own)
  {
    RunKeepsInvariant(steps[..|steps| - 1], policy, id);
    StaysClosed(Exec(steps[..|steps| - 1], policy), steps[|steps| - 1], policy, id, own);
  }

  /** When the deferred reason is the same: two runs that first-delivered the same callbacks, and let the
      deferred coroutine take its last turn, queue the very same events of the order if and only if that turn
      reads the same reason. */
  lemma RedeliveryReasonIff(steps: seq<Step>, n: nat, steps': seq<Step>, n': nat, policy: RoundingPolicy, order: Order,
                            firsts: seq<Callback>)
    requires FirstDelivered(steps, policy, order, firsts) && FirstDelivered(steps', policy, order, firsts)
    requires n < |steps| && LastTurn(Exec(steps[..n], policy), steps[n], order.id)
    requires n' < |steps'| && LastTurn(Exec(steps'[..n'], policy), steps'[n'], order.id)
    ensures Own(Exec(steps, policy).puts, order.id) == Own(Exec(steps', policy).puts, order.id) <==>
            RejectReason(Exec(steps[..n], policy), order.id) == RejectReason(Exec(steps'[..n'], policy), order.id)
  {
    var id := order.id;
    var own, own' := Own(Exec(steps, policy).puts, id), Own(Exec(steps', policy).puts, id);
    DeferredDecided(steps, n, policy, id);
    DeferredDecided(steps', n', policy, id);
    RedeliveryInvisible(steps, steps', policy, order, firsts);
    assert AllEmitted(own) + [] == EventsOf(Exec(steps, policy), id);
    assert AllEmitted(own') + [] == EventsOf(Exec(steps', policy), id);
    OwnIds(Exec(steps, policy).puts, id);
    OwnIds(Exec(steps', policy).puts, id);
    SameButLast(own, own', Spec(order, firsts), id);
  }

  /** Two traces that agree but for an open reason at the end are equal if and only if their last reasons are. */
  lemma SameButLast(own: seq<OrderEvent>, own': seq<OrderEvent>, spec: seq<Emission>, id: OrderId)
    requires own != [] && own' != [] && AgreeBut(AllEmitted(own), AllEmitted(own'), spec)
    requires forall i :: 0 <= i < |spec| && spec[i].reason.None? ==> i == |spec| - 1
    requires forall e :: e in own || e in own' ==> e.id == id
    ensures own == own' <==> own[|own| - 1].reason == own'[|own'| - 1].reason
  {
    assert |own| == |own'| == |spec|;
    forall i | 0 <= i < |own|
      ensures i < |own| - 1 ==> own[i] == own'[i]
      ensures own'[i] == own[i].(reason := own'[i].reason)
    {
      assert AllEmitted(own)[i] == Emitted(own[i]) && AllEmitted(own')[i] == Emitted(own'[i]);
      assert own[i] in own && own'[i] in own';
    }
  }

  /** The log and hold text of the last status delivered. */
  function LastStatus(cbs: seq<Callback>): (seq<LogEntry>, string) {
    if cbs == [] then ([], "")
    else if cbs[|cbs| - 1].StatusPush? then (cbs[|cbs| - 1].log, cbs[|cbs| - 1].whyHeld)
    else LastStatus(cbs[..|cbs| - 1])
  }

  /** What that turn reads: the last status delivered to the order, re-deliveries and those after its end
      included, and then the error stash. */
  lemma {:induction false} RejectReads(steps: seq<Step>, policy: RoundingPolicy, id: OrderId)
    requires FreshFor(steps, policy, id) && id in Exec(steps, policy).tracking
    ensures var b, last := Exec(steps, policy), LastStatus(CallbacksTo(steps, id, policy));
            id in b.trades && (b.trades[id].log, b.trades[id].whyHeld) == last
  {
    var init, s := steps[..|steps| - 1], steps[|steps| - 1];
    var b := Exec(init, policy);
    RunKeepsInvariant(init, policy, id);
    RunProjects(init, policy, id);
    if id in b.tracking {
      RejectReads(init, policy, id);
      ReadsStep(b, s, policy, id);
      var cbs := CallbacksTo(init, id, policy);
      assert (cbs + [if s.Push? then s.cb else FillPush(None, None)])[..|cbs|] == cbs && cbs + [] == cbs;
    } else {
      PlacedReads(b, s, policy, id);
    }
  }

  lemma PlacedReads(b: Broker, s: Step, policy: RoundingPolicy, id: OrderId)
    requires id !in b.tracking && Registered(b) && id in Next(b, s, policy).tracking
    ensures var b' := Next(b, s, policy);
            s.ResumeSubmit? && id in b'.trades && b'.trades[id].log == [] && b'.trades[id].whyHeld == ""
  {
    if s.ResumeSubmit? && s.index < |b.inflight| {
      SnapKeepsOrder(b.inflight[s.index], s.grid, policy);
    }
  }

  lemma ReadsStep(b: Broker, s: Step, policy: RoundingPolicy, id: OrderId)
    requires OrderOk(b, id) && id in b.tracking
    ensures var b' := Next(b, s, policy);
            id in b'.trades &&
            b'.trades[id] == if s.Push? && s.id == id then Observe(b.trades[id], s.cb) else b.trades[id]
  {
    if s.ResumeSubmit? && s.index < |b.inflight| {
      SnapKeepsOrder(b.inflight[s.index], s.grid, policy);
      assert LiveAt(b, s.index, id) <==> b.inflight[s.index].id == id && !Inert(b.inflight[s.index]);
    }
  }

  const ACCEPTING := StatusPush(StSubmitted, [LogEntry(0, "x")], "")
  const HOLDING := StatusPush(StInactive, [], "held")

  /** The reason does change: an acceptance, an `Inactive` with a hold text, and five loop turns reject the
      order with that text; an exact repeat of the acceptance before those turns makes its log the reason. */
  lemma RepeatedStatusChangesReason(b: Broker, id: OrderId)
    requires b.ready == [] && id in b.tracking && id in b.trades
    requires !b.tracking[id].accepted && !b.tracking[id].terminal
    ensures var plain := OnPush(OnPush(b, id, ACCEPTING), id, HOLDING);
            var repeated := OnPush(plain, id, ACCEPTING);
            var accepted := OrderItem(OrderEvent(id, EvAccepted, NoReason, None));
            && Turns(plain, 5).puts ==
               b.puts + [accepted] + [OrderItem(OrderEvent(id, EvRejected, VenueText("held"), None))]
            && Turns(repeated, 5).puts ==
               b.puts + [accepted] + [OrderItem(OrderEvent(id, EvRejected, VenueText("x"), None))]
  {
    var plain := OnPush(OnPush(b, id, ACCEPTING), id, HOLDING);
    var repeated := OnPush(plain, id, ACCEPTING);
    AcceptThenHold(b, id);
    assert Tasks(plain.tracking[id], id, ACCEPTING) == [];
    assert repeated.ready == plain.ready + [];
    FiveTurns(plain, id);
    FiveTurns(repeated, id);
  }

  lemma AcceptThenHold(b: Broker, id: OrderId)
    requires b.ready == [] && id in b.tracking && id in b.trades
    requires !b.tracking[id].accepted && !b.tracking[id].terminal
    ensures var b' := OnPush(OnPush(b, id, ACCEPTING), id, HOLDING);
            && b'.ready == [PutTask(OrderEvent(id, EvAccepted, NoReason, None))] + [RejectTask(id, REJECT_SPINS)]
            && b'.puts == b.puts && id in b'.tracking && b'.tracking[id].terminal
            && id in b'.trades && b'.trades[id].log == [] && b'.trades[id].whyHeld == "held"
  {
    var b1 := OnPush(b, id, ACCEPTING);
    assert b1.ready == [PutTask(OrderEvent(id, EvAccepted, NoReason, None))];
    assert Tasks(b1.tracking[id], id, HOLDING) == [RejectTask(id, REJECT_SPINS)];
  }

  lemma FiveTurns(b: Broker, id: OrderId)
    requires id in b.trades
    requires b.ready == [PutTask(OrderEvent(id, EvAccepted, NoReason, None))] + [RejectTask(id, REJECT_SPINS)]
    ensures Turns(b, 5).puts == b.puts + [OrderItem(OrderEvent(id, EvAccepted, NoReason, None))] +
                                [OrderItem(OrderEvent(id, EvRejected, RejectReason(b, id), None))]
  {
    var accepted := OrderEvent(id, EvAccepted, NoReason, None);
    var b1 := b.(ready := [RejectTask(id, REJECT_SPINS)], puts := b.puts + [OrderItem(accepted)]);
    assert OnReady(b) == b1 && Turns(b, 0) == b;
    assert Turns(b, 1) == b1;
    FourMore(b1, id);
    TurnsAfter(b, 1, 4);
  }

  lemma FourMore(b: Broker, id: OrderId)
    requires id in b.trades && b.ready == [RejectTask(id, REJECT_SPINS)]
    ensures Turns(b, 4).puts == b.puts + [OrderItem(OrderEvent(id, EvRejected, RejectReason(b, id), None))]
  {
    SpinTurns(b, id, REJECT_SPINS, REJECT_SPINS);
    assert Turns(b, 4) == OnReady(Turns(b, 3));
  }

  lemma {:induction false} TurnsAfter(b: Broker, m: nat, n: nat)
    ensures Turns(Turns(b, m), n) == Turns(b, m + n)
  {
    if n > 0 {
      TurnsAfter(b, m, n - 1);
    }
  }

  /** Why the reject is deferred: an error pushed after the `Inactive` status, but before the coroutine's
      last turn, still becomes the reason; pushed later it is lost. */
  lemma LateErrorIsReported(b: Broker, id: OrderId, code: int, message: string, policy: RoundingPolicy, turns: nat)
    requires b.ready == [] && id in b.tracking && id in b.trades && !b.tracking[id].terminal
    requires b.trades[id].ibId > 0 && b.trades[id].ibId !in b.errors && turns <= 4
    ensures var b1 := Next(b, Push(id, StatusPush(StInactive, [], "")), policy);
            var b2 := Next(Turns(b1, turns), ErrorPush(b.trades[id].ibId, code, message), policy);
            var b3 := Turns(b2, 4 - turns);
            && b3.ready == []
            && b3.puts == b.puts + [OrderItem(OrderEvent(
                            id, EvRejected,
                            if turns <= 3 then IbError(code, message) else Unrecoverable, None))]
  {
    InactiveDefers(b, id);
    RejectReports(OnPush(b, id, StatusPush(StInactive, [], "")), id, code, message, turns);
  }

  lemma RejectReports(b: Broker, id: OrderId, code: int, message: string, turns: nat)
    requires b.ready == [RejectTask(id, REJECT_SPINS)] && id in b.trades && turns <= REJECT_SPINS + 1
    requires b.trades[id].log == [] && b.trades[id].whyHeld == ""
    requires b.trades[id].ibId > 0 && b.trades[id].ibId !in b.errors
    ensures var b' := Turns(OnError(Turns(b, turns), b.trades[id].ibId, code, message), REJECT_SPINS + 1 - turns);
            && b'.ready == []
            && b'.puts == b.puts + [OrderItem(OrderEvent(
                            id, EvRejected,
                            if turns <= REJECT_SPINS then IbError(code, message) else Unrecoverable, None))]
  {
    if turns <= REJECT_SPINS {
      SpinTurns(b, id, REJECT_SPINS, turns);
      var b2 := OnError(Turns(b, turns), b.trades[id].ibId, code, message);
      SpinTurns(b2, id, REJECT_SPINS - turns, REJECT_SPINS - turns);
      assert Turns(b2, REJECT_SPINS + 1 - turns) == OnReady(Turns(b2, REJECT_SPINS - turns));
    } else {
      SpinTurns(b, id, REJECT_SPINS, REJECT_SPINS);
      assert Turns(b, turns) == OnReady(Turns(b, REJECT_SPINS));
    }
  }

  lemma InactiveDefers(b: Broker, id: OrderId)
    requires b.ready == [] && id in b.tracking && id in b.trades && !b.tracking[id].terminal
    ensures var b' := OnPush(b, id, StatusPush(StInactive, [], ""));
            && b'.ready == [RejectTask(id, REJECT_SPINS)] && b'.puts == b.puts && b'.errors == b.errors
            && id in b'.trades && b'.trades[id] == Trade(b.trades[id].ibId, [], "")
  {
  }

  /** The event loop takes `n` turns. */
  function Turns(b: Broker, n: nat): Broker {
    if n == 0 then b else OnReady(Turns(b, n - 1))
  }

  lemma {:induction false} SpinTurns(b: Broker, id: OrderId, spins: nat, n: nat)
    requires b.ready == [RejectTask(id, spins)] && n <= spins
    ensures Turns(b, n) == b.(ready := [RejectTask(id, spins - n)])
  {
    if n > 0 {
      SpinTurns(b, id, spins, n - 1);
    }
  }
}
