/** The sizer in money: what its orders are worth, stated on equity, slice, weight and price alone. */
module SizingInMoney {
  import opened Domain
  import opened Rounding
  import opened Positions
  import opened Ledgers
  import opened Sizing

  /** Whether a call fails, and why: the slice, then equity, then the first target at fault, its weight before
      its price. */
  lemma SizingFailsIff(inp: SizerInput, nextId: OrderId)
    requires Resolvable(inp)
    ensures Sized(inp, nextId) == Err(BadNavSlice) <==> inp.navSlice <= 0.0
    ensures Sized(inp, nextId) == Err(BadEquity) <==> inp.navSlice > 0.0 && inp.equity <= 0.0
    ensures Sized(inp, nextId).Ok? <==>
            && inp.navSlice > 0.0 && inp.equity > 0.0
            && forall t :: t in inp.targets ==> -1.0 <= t.weight <= 1.0 && inp.prices[inp.instruments[t.key]] > 0.0
    ensures forall key :: Sized(inp, nextId) == Err(BadWeight(key)) ==> FirstFault(inp, key, true)
    ensures forall key :: Sized(inp, nextId) == Err(BadPrice(key)) ==> FirstFault(inp, key, false)
  {
    FaultsUpTo(inp, |inp.targets|, nextId);
    assert inp.targets[..|inp.targets|] == inp.targets;
  }

  /** The first target at fault has this key, and its weight is bad, or else its price. */
  ghost predicate FirstFault(inp: SizerInput, key: string, weight: bool)
    requires Resolvable(inp)
  {
    exists i :: FaultAt(inp, i, key, weight)
  }

  ghost predicate FaultAt(inp: SizerInput, i: nat, key: string, weight: bool)
    requires Resolvable(inp)
  {
    && i < |inp.targets| && inp.targets[i].key == key
    && (forall t :: t in inp.targets[..i] ==> -1.0 <= t.weight <= 1.0 && inp.prices[inp.instruments[t.key]] > 0.0)
    && (weight <==> !(-1.0 <= inp.targets[i].weight <= 1.0))
    && (!weight ==> inp.prices[inp.instruments[key]] <= 0.0)
  }

  lemma {:induction false} FaultsUpTo(inp: SizerInput, n: nat, nextId: OrderId)
    requires Resolvable(inp) && n <= |inp.targets|
    ensures var r := SizedUpTo(inp, n, nextId);
            && (r.Ok? <==> forall t :: t in inp.targets[..n] ==>
                             -1.0 <= t.weight <= 1.0 && inp.prices[inp.instruments[t.key]] > 0.0)
            && (r.Err? ==> exists i: nat, weight ::
                             i < n && FaultAt(inp, i, inp.targets[i].key, weight) &&
                             r.error == if weight then BadWeight(inp.targets[i].key) else BadPrice(inp.targets[i].key))
  {
    if n > 0 {
      FaultsUpTo(inp, n - 1, nextId);
      var t := inp.targets[n - 1];
      assert inp.targets[..n] == inp.targets[..n - 1] + [t];
      if SizedUpTo(inp, n - 1, nextId).Ok? && SizedUpTo(inp, n, nextId).Err? {
        assert FaultAt(inp, n - 1, t.key, !(-1.0 <= t.weight <= 1.0));
      }
    }
  }

  // ---- Each order against its target ----------------------------------------

  /** What a target still lacks, in money: the target's part of the slice of equity less the holding. */
  function Gap(inp: SizerInput, t: Target): real
    requires t.key in inp.instruments && inp.instruments[t.key] in inp.prices
  {
    inp.equity * inp.navSlice * t.weight
    - (if t.key in inp.positions then inp.positions[t.key].quantity else 0.0) * inp.prices[inp.instruments[t.key]]
  }

  /** A market order that closes the gap to within one share's price: bought when money is to be spent. */
  ghost predicate Closes(inp: SizerInput, t: Target, o: Order)
    requires t.key in inp.instruments && inp.instruments[t.key] in inp.prices
  {
    var gap, price := Gap(inp, t), inp.prices[inp.instruments[t.key]];
    && o.strategyId == inp.strategyId && o.instrument == inp.instruments[t.key]
    && o.orderType == Mkt && o.limitPrice == None && o.stopPrice == None
    && o.quantity == o.quantity.Floor as real && o.quantity >= 1.0
    && (if o.side == Buy then 0.0 <= gap - o.quantity * price < price
        else -price < gap + o.quantity * price <= 0.0)
  }

  /** The first `n` targets in order, each with a gap of a share or more having the order that closes it, and
      the others none. */
  ghost predicate Answered(inp: SizerInput, n: nat, orders: seq<Order>)
    requires Resolvable(inp) && n <= |inp.targets|
  {
    if n == 0 then orders == []
    else
      var t := inp.targets[n - 1];
      var gap, price := Gap(inp, t), inp.prices[inp.instruments[t.key]];
      if -price < gap < price then Answered(inp, n - 1, orders)
      else orders != [] && Closes(inp, t, orders[|orders| - 1]) && Answered(inp, n - 1, orders[..|orders| - 1])
  }

  /** Every order of every call, in money. */
  lemma OrdersCloseGaps(inp: SizerInput, nextId: OrderId)
    requires Resolvable(inp) && Sized(inp, nextId).Ok?
    ensures Answered(inp, |inp.targets|, Sized(inp, nextId).value)
    ensures forall i :: 0 <= i < |Sized(inp, nextId).value| ==> Sized(inp, nextId).value[i].id == nextId + i
  {
    AnsweredUpTo(inp, |inp.targets|, nextId);
  }

  lemma {:induction false} AnsweredUpTo(inp: SizerInput, n: nat, nextId: OrderId)
    requires Resolvable(inp) && n <= |inp.targets| && SizedUpTo(inp, n, nextId).Ok?
    ensures Answered(inp, n, SizedUpTo(inp, n, nextId).value)
    ensures forall i :: 0 <= i < |SizedUpTo(inp, n, nextId).value| ==>
              SizedUpTo(inp, n, nextId).value[i].id == nextId + i
  {
    if n > 0 {
      SizedStep(inp, n, nextId);
      AnsweredUpTo(inp, n - 1, nextId);
      var t, before := inp.targets[n - 1], SizedUpTo(inp, n - 1, nextId).value;
      SharesCloseGap(inp, t, nextId + |before|);
      if Shares(inp, t) != 0 {
        assert (before + [MarketOrder(inp, t, Shares(inp, t), nextId + |before|)])[..|before|] == before;
      }
    }
  }

  lemma SharesCloseGap(inp: SizerInput, t: Target, id: OrderId)
    requires t.key in inp.instruments && inp.instruments[t.key] in inp.prices && PriceOf(inp, t.key) > 0.0
    ensures var gap, price := Gap(inp, t), PriceOf(inp, t.key);
            && (Shares(inp, t) == 0 <==> -price < gap < price)
            && (Shares(inp, t) != 0 ==> Closes(inp, t, MarketOrder(inp, t, Shares(inp, t), id)))
  {
    GapInShares(inp, t);
    TruncatedInMoney(Desired(inp, t) - CurrentQty(inp, t.key), PriceOf(inp, t.key), Gap(inp, t));
  }

  lemma GapInShares(inp: SizerInput, t: Target)
    requires t.key in inp.instruments && inp.instruments[t.key] in inp.prices && PriceOf(inp, t.key) > 0.0
    ensures (Desired(inp, t) - CurrentQty(inp, t.key)) * PriceOf(inp, t.key) == Gap(inp, t)
  {
    DesiredInMoney(inp, t);
    Distributes(Desired(inp, t), CurrentQty(inp, t.key), PriceOf(inp, t.key));
  }

  lemma Distributes(x: real, y: real, p: real)
    ensures (x - y) * p == x * p - y * p
  {
  }

  lemma DesiredInMoney(inp: SizerInput, t: Target)
    requires t.key in inp.instruments && inp.instruments[t.key] in inp.prices && PriceOf(inp, t.key) > 0.0
    ensures Desired(inp, t) * PriceOf(inp, t.key) == inp.equity * inp.navSlice * t.weight
    ensures Desired(inp, t) == inp.equity * inp.navSlice * t.weight / PriceOf(inp, t.key)
  {
    Quotient(inp.equity * inp.navSlice * t.weight, PriceOf(inp, t.key));
    assert t.weight == 0.0 ==> inp.equity * inp.navSlice * t.weight == 0.0;
  }

  lemma Quotient(x: real, p: real)
    requires p > 0.0
    ensures x / p * p == x && 0.0 / p == 0.0
  {
  }

  /** Truncating `d` shares worth `gap` toward zero, in money. */
  lemma TruncatedInMoney(d: real, p: real, gap: real)
    requires p > 0.0 && d * p == gap
    ensures var n := Truncate(d);
            && (n == 0 <==> -p < gap < p)
            && (n > 0 ==> 0.0 <= gap - n as real * p < p)
            && (n < 0 ==> -p < gap + (-n) as real * p <= 0.0)
  {
    var n := Truncate(d);
    TruncateToward(d);
    Distributes(d, n as real, p);
    Scaled(d, p, gap);
    Scaled(d - n as real, p, gap - n as real * p);
    Opposite(n, p);
  }

  lemma Opposite(n: int, p: real)
    ensures (-n) as real * p == -(n as real * p)
  {
    assert (-n) as real == -(n as real);
  }

  lemma Scaled(x: real, p: real, y: real)
    requires p > 0.0 && y == x * p
    ensures (x < 1.0 <==> y < p) && (x > -1.0 <==> y > -p) && (x >= 0.0 <==> y >= 0.0) && (x <= 0.0 <==> y <= 0.0)
  {
    SignOf(x, p, y);
    SignOf(x - 1.0, p, y - p);
    SignOf(x + 1.0, p, y + p);
  }

  lemma SignOf(x: real, p: real, y: real)
    requires p > 0.0 && y == x * p
    ensures (x > 0.0 <==> y > 0.0) && (x < 0.0 <==> y < 0.0)
  {
  }

  // ---- Holdings after the orders ---------------------------------------------

  /** After executing the orders at their lookup prices every holding is worth its part of the slice of equity to
      within one share's price, and lies between the old holding and that part's worth in shares. */
  lemma RebalancedInMoney(inp: SizerInput, cash: real, marks: map<string, real>, nextId: OrderId, now: int)
    requires Ready(inp, cash, marks, nextId)
    ensures forall t :: t in inp.targets ==> inp.prices[inp.instruments[t.key]] > 0.0
    ensures var l := Executed(Ledger(cash, inp.positions), Sized(inp, nextId).value, inp, now);
            l.Ok? && forall t :: t in inp.targets ==>
              HeldInMoney(inp, t, if t.key in l.value.positions then l.value.positions[t.key].quantity else 0.0)
  {
    RebalanceFixedPoint(inp, cash, marks, nextId, now);
    var l := Executed(Ledger(cash, inp.positions), Sized(inp, nextId).value, inp, now).value;
    forall t | t in inp.targets
      ensures HeldInMoney(inp, t, Qty(Held(l, t.key)))
    {
      TowardInMoney(inp, t, Qty(Held(l, t.key)));
    }
  }

  /** This quantity of the target's instrument is what a rebalance should leave. */
  ghost predicate HeldInMoney(inp: SizerInput, t: Target, quantity: real)
    requires t.key in inp.instruments && inp.instruments[t.key] in inp.prices
    requires inp.prices[inp.instruments[t.key]] > 0.0
  {
    var price := inp.prices[inp.instruments[t.key]];
    var before := if t.key in inp.positions then inp.positions[t.key].quantity else 0.0;
    && -price < inp.equity * inp.navSlice * t.weight - quantity * price < price
    && (|| before <= quantity <= inp.equity * inp.navSlice * t.weight / price
        || inp.equity * inp.navSlice * t.weight / price <= quantity <= before)
  }

  lemma TowardInMoney(inp: SizerInput, t: Target, quantity: real)
    requires t.key in inp.instruments && inp.instruments[t.key] in inp.prices && PriceOf(inp, t.key) > 0.0
    requires Toward(CurrentQty(inp, t.key), Desired(inp, t), quantity)
    ensures HeldInMoney(inp, t, quantity)
  {
    var d, price := Desired(inp, t), PriceOf(inp, t.key);
    DesiredInMoney(inp, t);
    Distributes(d, quantity, price);
    Scaled(d - quantity, price, inp.equity * inp.navSlice * t.weight - quantity * price);
  }
}
