/** What reaches the wire, against what was submitted. */
module Submissions {
  import opened Domain
  import opened EventQueue
  import opened PriceGrid
  import opened OrderTracking
  import opened IBBrokerModel
  import opened IBBrokerTheorems

  /** An absent price stays absent; a present one is moved, on a grid, to the legal price the policy picks for
      this side. */
  ghost predicate SnapsPrice(before: Option<real>, after: Option<real>, grid: Option<seq<Band>>, side: OrderSide,
                             policy: RoundingPolicy) {
    && (before.Some? <==> after.Some?)
    && (before.Some? ==>
          && grid.Some? && grid.value != [] && before.value > 0.0 && after.value > 0.0
          && (Grid(grid.value) ==> PicksFor(grid.value, before.value, side, policy, after.value)))
  }

  /** The order as submitted but for its snapped prices, and of a type the adapter can place. */
  ghost predicate PlacedFor(o: Order, p: Placement, policy: RoundingPolicy) {
    && p.order == o.(limitPrice := p.order.limitPrice, stopPrice := p.order.stopPrice)
    && o.orderType in {Mkt, Lmt, Stp, StpLmt, AdaptiveMkt} && o.quantity > 0.0
    && SnapsPrice(o.limitPrice, p.order.limitPrice, p.grid, o.side, policy)
    && SnapsPrice(o.stopPrice, p.order.stopPrice, p.grid, o.side, policy)
  }

  lemma SnapOrderPlaces(o: Order, grid: Option<seq<Band>>, policy: RoundingPolicy)
    requires SnapOrder(o, grid, policy).Ok? && Supported(o.orderType)
    ensures PlacedFor(o, Placement(SnapOrder(o, grid, policy).value, grid), policy)
  {
    if Priced(o) && Grid(grid.value) {
      var t := grid.value;
      if o.limitPrice.Some? {
        SnapPicksLegalPrice(t, o.limitPrice.value, o.side, policy);
      }
      if o.stopPrice.Some? {
        SnapPicksLegalPrice(t, o.stopPrice.value, o.side, policy);
      }
    }
  }

  /** When a suspended submit places its order: exactly when the order passes its checks, is of a supported type,
      and any prices snap to positive ones on a usable table. Otherwise it announces one REJECTED, if the order is
      priced and its table unknown, or nothing. */
  lemma PlacesIff(b: Broker, i: nat, grid: Option<seq<Band>>, ibId: int, policy: RoundingPolicy)
    requires i < |b.inflight|
    ensures var o, b' := b.inflight[i], Next(b, ResumeSubmit(i, grid, ibId), policy);
            var unpriced := o.limitPrice.None? && o.stopPrice.None?;
            var snaps := grid.Some? && grid.value != [] && UsableTable(grid.value)
                         && (o.limitPrice.Some? ==> Snapped(grid.value, o.limitPrice.value, o.side, policy) > 0.0)
                         && (o.stopPrice.Some? ==> Snapped(grid.value, o.stopPrice.value, o.side, policy) > 0.0);
            if ValidOrder(o) && o.orderType !in {Moc, Loc} && (unpriced || snaps) then
              && (exists p :: PlacedFor(o, p, policy) && p.grid == grid && b'.wire == b.wire + [p])
              && b'.puts == b.puts + [OrderItem(OrderEvent(o.id, EvSubmitted, NoReason, None))]
            else
              && b'.wire == b.wire
              && b'.puts == if ValidOrder(o) && !unpriced && grid == None
                            then b.puts + [OrderItem(OrderEvent(o.id, EvRejected, PriceRuleUnavailable, None))]
                            else b.puts
  {
    var o := b.inflight[i];
    if SnapOrder(o, grid, policy).Ok? && Supported(o.orderType) {
      SnapOrderPlaces(o, grid, policy);
      var p := Placement(SnapOrder(o, grid, policy).value, grid);
      assert Next(b, ResumeSubmit(i, grid, ibId), policy).wire == b.wire + [p];
    }
  }

  /** Some submit of the run was begun with this order. */
  ghost predicate Begun(steps: seq<Step>, o: Order) {
    BeginSubmit(o) in steps
  }

  /** In every run whatever is on the wire was submitted, and is placed as submitted. */
  lemma {:induction false} EveryPlacement(steps: seq<Step>, policy: RoundingPolicy)
    ensures forall o :: o in Exec(steps, policy).inflight ==> Begun(steps, o)
    ensures forall p :: p in Exec(steps, policy).wire ==> exists o :: Begun(steps, o) && PlacedFor(o, p, policy)
  {
    if steps != [] {
      var init, s := steps[..|steps| - 1], steps[|steps| - 1];
      EveryPlacement(init, policy);
      assert steps == init + [s];
      var b, b' := Exec(init, policy), Exec(steps, policy);
      StepPlaces(b, s, policy);
      forall o | o in b'.inflight
        ensures Begun(steps, o)
      {
        assert o in b.inflight || s == BeginSubmit(o);
      }
      forall p | p in b'.wire
        ensures exists o :: Begun(steps, o) && PlacedFor(o, p, policy)
      {
        if p in b.wire {
          var o :| Begun(init, o) && PlacedFor(o, p, policy);
          assert Begun(steps, o);
        } else {
          assert b.inflight[s.index] in b.inflight && Begun(init, b.inflight[s.index]);
          assert Begun(steps, b.inflight[s.index]);
        }
      }
    }
  }

  lemma StepPlaces(b: Broker, s: Step, policy: RoundingPolicy)
    ensures var b' := Next(b, s, policy);
            && (forall o :: o in b'.inflight ==> o in b.inflight || s == BeginSubmit(o))
            && forall p :: p in b'.wire ==>
                 p in b.wire ||
                 (s.ResumeSubmit? && s.index < |b.inflight| && PlacedFor(b.inflight[s.index], p, policy))
  {
    if s.ResumeSubmit? && s.index < |b.inflight| {
      var o := b.inflight[s.index];
      if SnapOrder(o, s.grid, policy).Ok? && Supported(o.orderType) {
        SnapOrderPlaces(o, s.grid, policy);
      }
    }
  }
}
