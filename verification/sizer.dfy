/** The sizer: target weights to whole-share orders, and what a rebalance leaves behind. */
module Sizing {
  import opened Domain
  import opened Rounding
  import opened Positions
  import opened Ledgers

  /** Target weights in the order the caller lists them. */
  datatype Target = Target(key: string, weight: real)

  datatype SizerInput = SizerInput(
    targets: seq<Target>,
    equity: real,
    navSlice: real,
    positions: map<string, Position>,
    instruments: map<string, Instrument>,
    prices: map<Instrument, real>,
    strategyId: string)

  datatype SizerError = BadNavSlice | BadEquity | BadWeight(key: string) | BadPrice(key: string)

  /** Every target can be resolved and priced. */
  predicate Resolvable(inp: SizerInput) {
    forall t :: t in inp.targets ==> t.key in inp.instruments && inp.instruments[t.key] in inp.prices
  }

  function PriceOf(inp: SizerInput, key: string): real
    requires key in inp.instruments && inp.instruments[key] in inp.prices
  {
    inp.prices[inp.instruments[key]]
  }

  function EffectiveCapital(inp: SizerInput): real {
    inp.equity * inp.navSlice
  }

  /** Desired signed quantity; weight zero asks for exactly zero. */
  function Desired(inp: SizerInput, t: Target): real
    requires t.key in inp.instruments && inp.instruments[t.key] in inp.prices && PriceOf(inp, t.key) > 0.0
  {
    if t.weight == 0.0 then 0.0 else (EffectiveCapital(inp) * t.weight) / PriceOf(inp, t.key)
  }

  function CurrentQty(inp: SizerInput, key: string): real {
    if key in inp.positions then inp.positions[key].quantity else 0.0
  }

  /** Whole shares to trade for a target. */
  function Shares(inp: SizerInput, t: Target): int
    requires t.key in inp.instruments && inp.instruments[t.key] in inp.prices && PriceOf(inp, t.key) > 0.0
  {
    Truncate(Desired(inp, t) - CurrentQty(inp, t.key))
  }

  function MarketOrder(inp: SizerInput, t: Target, shares: int, id: OrderId): Order
    requires t.key in inp.instruments
  {
    Order(id, inp.strategyId, inp.instruments[t.key], if shares > 0 then Buy else Sell,
          if shares > 0 then shares as real else -shares as real, Mkt, None, None)
  }

  /** Orders for the first `n` targets, in order; the first bad weight or price fails the call. */
  function SizedUpTo(inp: SizerInput, n: nat, nextId: OrderId): Result<seq<Order>, SizerError>
    requires n <= |inp.targets| && Resolvable(inp)
  {
    if n == 0 then Ok([])
    else
      match SizedUpTo(inp, n - 1, nextId)
      case Err(e) => Err(e)
      case Ok(orders) =>
        var t := inp.targets[n - 1];
        if !(-1.0 <= t.weight <= 1.0) then Err(BadWeight(t.key))
        else if PriceOf(inp, t.key) <= 0.0 then Err(BadPrice(t.key))
        else
          var shares := Shares(inp, t);
          if shares == 0 then Ok(orders) else Ok(orders + [MarketOrder(inp, t, shares, nextId + |orders|)])
  }

  function Sized(inp: SizerInput, nextId: OrderId): Result<seq<Order>, SizerError>
    requires Resolvable(inp)
  {
    if inp.navSlice <= 0.0 then Err(BadNavSlice)
    else if inp.equity <= 0.0 then Err(BadEquity)
    else SizedUpTo(inp, |inp.targets|, nextId)
  }

  method SizeOrders(inp: SizerInput, nextId: OrderId) returns (r: Result<seq<Order>, SizerError>)
    requires Resolvable(inp)
    ensures r == Sized(inp, nextId)
  {
    if inp.navSlice <= 0.0 {
      return Err(BadNavSlice);
    }
    if inp.equity <= 0.0 {
      return Err(BadEquity);
    }
    var orders := [];
    for i := 0 to |inp.targets|
      invariant SizedUpTo(inp, i, nextId) == Ok(orders)
    {
      var t := inp.targets[i];
      if !(-1.0 <= t.weight <= 1.0) {
        SizedErrorSticks(inp, i + 1, |inp.targets|, nextId);
        return Err(BadWeight(t.key));
      }
      var instrument := inp.instruments[t.key];
      var price := inp.prices[instrument];
      if price <= 0.0 {
        SizedErrorSticks(inp, i + 1, |inp.targets|, nextId);
        return Err(BadPrice(t.key));
      }
      var rounded := Truncate(Desired(inp, t) - CurrentQty(inp, t.key));
      assert rounded == Shares(inp, t);
      if rounded != 0 {
        var side, quantity := Buy, rounded;
        if rounded < 0 {
          side, quantity := Sell, -rounded;
        }
        var id := nextId + |orders|;
        orders := orders + [Order(id, inp.strategyId, instrument, side, quantity as real, Mkt, None, None)];
      }
    }
    r := Ok(orders);
  }

  lemma SizedErrorSticks(inp: SizerInput, n: nat, m: nat, nextId: OrderId)
    requires Resolvable(inp) && n <= m <= |inp.targets| && SizedUpTo(inp, n, nextId).Err?
    ensures SizedUpTo(inp, m, nextId) == SizedUpTo(inp, n, nextId)
  {
    if n < m {
      SizedErrorSticks(inp, n, m - 1, nextId);
    }
  }

  // ---- Filling every order at the lookup price -----------------------------

  function CleanFill(o: Order, price: real): Fill {
    Fill(o.id, "clean", o.instrument, o.side, o.quantity, price, 0.0, 0)
  }

  function LookupPrice(inp: SizerInput, inst: Instrument): real {
    if inst in inp.prices then inp.prices[inst] else 0.0
  }

  /** The ledger after every order fills in full at its lookup price without commission. */
  function Executed(l: Ledger, orders: seq<Order>, inp: SizerInput, now: int): Result<Ledger, ApplyError> {
    if orders == [] then Ok(l)
    else
      var o := orders[|orders| - 1];
      match Executed(l, orders[..|orders| - 1], inp, now)
      case Err(e) => Err(e)
      case Ok(l') => Settle(l', CleanFill(o, LookupPrice(inp, o.instrument)), inp.strategyId, now)
  }

  /** Keys are symbols, listed once; marks agree with the lookup prices. */
  ghost predicate Keyed(inp: SizerInput, marks: map<string, real>) {
    && Resolvable(inp)
    && (forall t :: t in inp.targets ==>
          inp.instruments[t.key].symbol == t.key && t.key in marks && marks[t.key] == PriceOf(inp, t.key))
    && (forall i, j :: 0 <= i < j < |inp.targets| ==> inp.targets[i].key != inp.targets[j].key)
  }

  /** The caller's books are consistent: holdings are this strategy's and in the resolved instruments, and
      equity is the books' equity at the marks. */
  ghost predicate Consistent(inp: SizerInput, cash: real, marks: map<string, real>) {
    && Keyed(inp, marks)
    && (forall t :: t in inp.targets && t.key in inp.positions ==>
          inp.positions[t.key].strategyId == inp.strategyId &&
          inp.positions[t.key].instrument == inp.instruments[t.key])
    && inp.equity == Equity(Ledger(cash, inp.positions), marks)
  }

  lemma TruncateToward(x: real)
    ensures var n := Truncate(x);
            && Abs(x - n as real) < 1.0
            && (x >= 0.0 ==> 0.0 <= n as real <= x) && (x <= 0.0 ==> x <= n as real <= 0.0)
            && Truncate(x - n as real) == 0
  {
  }

  /** Target `i` after the first `n` targets were executed: moved by its shares if already due. */
  ghost predicate MovedAt(inp: SizerInput, l: Ledger, n: nat, i: nat)
    requires i < |inp.targets| && Resolvable(inp)
  {
    var t := inp.targets[i];
    && (if i < n then
          PriceOf(inp, t.key) > 0.0 && Qty(Held(l, t.key)) == CurrentQty(inp, t.key) + Shares(inp, t) as real
        else Qty(Held(l, t.key)) == CurrentQty(inp, t.key))
    && (t.key in l.positions ==>
          l.positions[t.key].strategyId == inp.strategyId && l.positions[t.key].instrument == inp.instruments[t.key])
  }

  ghost predicate Moved(inp: SizerInput, l: Ledger, n: nat)
    requires Resolvable(inp)
  {
    forall i :: 0 <= i < |inp.targets| ==> MovedAt(inp, l, n, i)
  }

  lemma SizedPrices(inp: SizerInput, n: nat, nextId: OrderId)
    requires n <= |inp.targets| && Resolvable(inp) && SizedUpTo(inp, n, nextId).Ok?
    ensures forall t :: t in inp.targets[..n] ==> PriceOf(inp, t.key) > 0.0 && -1.0 <= t.weight <= 1.0
    ensures forall o :: o in SizedUpTo(inp, n, nextId).value ==>
              && o.instrument in inp.prices && o.quantity >= 1.0 && o.orderType == Mkt
              && o.instrument in inp.instruments.Values
  {
    if n > 0 {
      SizedPrices(inp, n - 1, nextId);
      assert inp.targets[..n] == inp.targets[..n - 1] + [inp.targets[n - 1]];
    }
  }

  ghost predicate Ready(inp: SizerInput, cash: real, marks: map<string, real>, nextId: OrderId) {
    Consistent(inp, cash, marks) && Sized(inp, nextId).Ok?
  }

  lemma SettleMoves(inp: SizerInput, l: Ledger, marks: map<string, real>, n: nat, o: Order, now: int)
    requires Keyed(inp, marks) && n < |inp.targets| && PriceOf(inp, inp.targets[n].key) > 0.0
    requires Moved(inp, l, n) && Shares(inp, inp.targets[n]) != 0
    requires o == MarketOrder(inp, inp.targets[n], Shares(inp, inp.targets[n]), o.id)
    ensures var s := Settle(l, CleanFill(o, PriceOf(inp, inp.targets[n].key)), inp.strategyId, now);
            s.Ok? && Moved(inp, s.value, n + 1)
  {
    var t := inp.targets[n];
    var f := CleanFill(o, PriceOf(inp, t.key));
    var s := Settle(l, f, inp.strategyId, now);
    assert MovedAt(inp, l, n, n) && t in inp.targets;
    assert s.Ok?;
    ApplyFillQuantity(Held(l, t.key), f, inp.strategyId, now);
    var m := n + 1;
    forall i | 0 <= i < |inp.targets|
      ensures MovedAt(inp, s.value, m, i)
    {
      assert MovedAt(inp, l, n, i);
      if i != n {
        assert inp.targets[i].key != t.key;
      }
    }
  }

  lemma GainAtMark(f: Fill, marks: map<string, real>)
    requires f.instrument.symbol in marks && marks[f.instrument.symbol] == f.price && f.commission == 0.0
    ensures Gain(f, marks) == 0.0
  {
  }

  /** Executing `orders` works, moves the first `n` targets, and leaves equity at the marks alone. */
  ghost predicate Executes(inp: SizerInput, start: Ledger, orders: seq<Order>, marks: map<string, real>, now: int,
                           n: nat)
    requires Resolvable(inp)
  {
    var l := Executed(start, orders, inp, now);
    l.Ok? && Moved(inp, l.value, n) && Equity(l.value, marks) == Equity(start, marks)
  }

  lemma {:induction false} ExecutedUpTo(inp: SizerInput, cash: real, marks: map<string, real>, nextId: OrderId,
                                        now: int, n: nat)
    requires Consistent(inp, cash, marks) && n <= |inp.targets| && SizedUpTo(inp, n, nextId).Ok?
    ensures Executes(inp, Ledger(cash, inp.positions), SizedUpTo(inp, n, nextId).value, marks, now, n)
  {
    if n == 0 {
      StartUnmoved(inp, cash, marks);
    } else {
      SizedStep(inp, n, nextId);
      ExecutedUpTo(inp, cash, marks, nextId, now, n - 1);
      ExecutedStep(inp, Ledger(cash, inp.positions), marks, SizedUpTo(inp, n - 1, nextId).value,
                   SizedUpTo(inp, n, nextId).value, nextId, now, n - 1);
    }
  }

  lemma StartUnmoved(inp: SizerInput, cash: real, marks: map<string, real>)
    requires Consistent(inp, cash, marks)
    ensures Moved(inp, Ledger(cash, inp.positions), 0)
  {
    assert forall i :: 0 <= i < |inp.targets| ==> inp.targets[i] in inp.targets;
  }

  /** Executing the order of the next target, if it has one. */
  lemma ExecutedStep(inp: SizerInput, start: Ledger, marks: map<string, real>, before: seq<Order>, after: seq<Order>,
                     nextId: OrderId, now: int, n: nat)
    requires Keyed(inp, marks) && n < |inp.targets| && PriceOf(inp, inp.targets[n].key) > 0.0
    requires Executes(inp, start, before, marks, now, n)
    requires var t := inp.targets[n];
             after == if Shares(inp, t) == 0 then before
                      else before + [MarketOrder(inp, t, Shares(inp, t), nextId + |before|)]
    ensures Executes(inp, start, after, marks, now, n + 1)
  {
    var t, l := inp.targets[n], Executed(start, before, inp, now).value;
    if Shares(inp, t) == 0 {
      StaysMoved(inp, l, n);
    } else {
      var o := MarketOrder(inp, t, Shares(inp, t), nextId + |before|);
      ExecuteNext(inp, l, n, o, now, marks);
      ExecutedSnoc(start, before, o, inp, now);
    }
  }

  lemma SizedStep(inp: SizerInput, n: nat, nextId: OrderId)
    requires 0 < n <= |inp.targets| && Resolvable(inp) && SizedUpTo(inp, n, nextId).Ok?
    ensures SizedUpTo(inp, n - 1, nextId).Ok? && PriceOf(inp, inp.targets[n - 1].key) > 0.0
    ensures var t, before := inp.targets[n - 1], SizedUpTo(inp, n - 1, nextId).value;
            SizedUpTo(inp, n, nextId).value ==
            if Shares(inp, t) == 0 then before else before + [MarketOrder(inp, t, Shares(inp, t), nextId + |before|)]
  {
  }

  lemma ExecutedSnoc(l: Ledger, orders: seq<Order>, o: Order, inp: SizerInput, now: int)
    ensures Executed(l, orders, inp, now).Ok? ==>
              Executed(l, orders + [o], inp, now) ==
              Settle(Executed(l, orders, inp, now).value, CleanFill(o, LookupPrice(inp, o.instrument)),
                     inp.strategyId, now)
  {
    assert (orders + [o])[..|orders|] == orders;
  }

  lemma StaysMoved(inp: SizerInput, l: Ledger, n: nat)
    requires Resolvable(inp) && n < |inp.targets| && PriceOf(inp, inp.targets[n].key) > 0.0
    requires Moved(inp, l, n) && Shares(inp, inp.targets[n]) == 0
    ensures Moved(inp, l, n + 1)
  {
    var m := n + 1;
    forall i | 0 <= i < |inp.targets|
      ensures MovedAt(inp, l, m, i)
    {
      assert MovedAt(inp, l, n, i);
    }
  }

  lemma ExecuteNext(inp: SizerInput, l: Ledger, n: nat, o: Order, now: int, marks: map<string, real>)
    requires Keyed(inp, marks) && n < |inp.targets| && PriceOf(inp, inp.targets[n].key) > 0.0
    requires Moved(inp, l, n) && Shares(inp, inp.targets[n]) != 0
    requires o == MarketOrder(inp, inp.targets[n], Shares(inp, inp.targets[n]), o.id)
    ensures LookupPrice(inp, o.instrument) == PriceOf(inp, inp.targets[n].key)
    ensures var s := Settle(l, CleanFill(o, LookupPrice(inp, o.instrument)), inp.strategyId, now);
            s.Ok? && Moved(inp, s.value, n + 1) && Equity(s.value, marks) == Equity(l, marks)
  {
    SettleMoves(inp, l, marks, n, o, now);
    var f := CleanFill(o, PriceOf(inp, inp.targets[n].key));
    assert inp.targets[n] in inp.targets;
    SettleEquity(l, f, inp.strategyId, now, marks);
    GainAtMark(f, marks);
  }

  /** Between the old and the desired quantity, less than one share short of the latter. */
  predicate Toward(from: real, to: real, q: real) {
    && (from <= to ==> from <= q <= to) && (to <= from ==> to <= q <= from)
    && Abs(to - q) < 1.0
  }

  /** Rebalancing is a fixed point: executing every order at its lookup price leaves equity unchanged and
      every target within a share of its desired quantity, and sizing again asks for nothing. */
  lemma RebalanceFixedPoint(inp: SizerInput, cash: real, marks: map<string, real>, nextId: OrderId, now: int)
    requires Ready(inp, cash, marks, nextId)
    ensures forall t :: t in inp.targets ==> PriceOf(inp, t.key) > 0.0
    ensures var l := Executed(Ledger(cash, inp.positions), Sized(inp, nextId).value, inp, now);
            && l.Ok?
            && Equity(l.value, marks) == inp.equity
            && (forall t :: t in inp.targets ==>
                  Toward(CurrentQty(inp, t.key), Desired(inp, t), Qty(Held(l.value, t.key))))
            && var again := inp.(positions := l.value.positions, equity := Equity(l.value, marks));
            Sized(again, nextId) == Ok([])
  {
    var n := |inp.targets|;
    ExecutedUpTo(inp, cash, marks, nextId, now, n);
    SizedPrices(inp, n, nextId);
    assert inp.targets[..n] == inp.targets;
    var l := Executed(Ledger(cash, inp.positions), Sized(inp, nextId).value, inp, now).value;
    var again := inp.(positions := l.positions, equity := Equity(l, marks));
    forall t | t in inp.targets
      ensures Toward(CurrentQty(inp, t.key), Desired(inp, t), Qty(Held(l, t.key))) && Shares(again, t) == 0
    {
      var i :| 0 <= i < |inp.targets| && inp.targets[i] == t;
      TargetSettled(inp, again, l, i);
    }
    NothingLeft(again, n, nextId);
  }

  lemma TargetSettled(inp: SizerInput, again: SizerInput, l: Ledger, i: nat)
    requires Resolvable(inp) && i < |inp.targets|
    requires Moved(inp, l, |inp.targets|) && again == inp.(positions := l.positions)
    ensures var t := inp.targets[i];
            PriceOf(inp, t.key) > 0.0 && Toward(CurrentQty(inp, t.key), Desired(inp, t), Qty(Held(l, t.key)))
            && Shares(again, t) == 0
  {
    var t := inp.targets[i];
    assert MovedAt(inp, l, |inp.targets|, i);
    DesiredStays(inp, l.positions, t);
    assert CurrentQty(again, t.key) == Qty(Held(l, t.key)) == CurrentQty(inp, t.key) + Shares(inp, t) as real;
    TradeToward(CurrentQty(inp, t.key), Desired(inp, t));
  }

  lemma DesiredStays(inp: SizerInput, positions: map<string, Position>, t: Target)
    requires t.key in inp.instruments && inp.instruments[t.key] in inp.prices && PriceOf(inp, t.key) > 0.0
    ensures var again := inp.(positions := positions);
            && Desired(again, t) == Desired(inp, t)
            && Shares(again, t) == Truncate(Desired(inp, t) - CurrentQty(again, t.key))
  {
    assert EffectiveCapital(inp.(positions := positions)) == EffectiveCapital(inp);
  }

  lemma TradeToward(cur: real, d: real)
    ensures var q := cur + Truncate(d - cur) as real; Toward(cur, d, q) && Truncate(d - q) == 0
  {
    TruncateToward(d - cur);
  }

  lemma NothingLeft(inp: SizerInput, n: nat, nextId: OrderId)
    requires n <= |inp.targets| && Resolvable(inp)
    requires forall t :: t in inp.targets ==>
               -1.0 <= t.weight <= 1.0 && PriceOf(inp, t.key) > 0.0 && Shares(inp, t) == 0
    ensures SizedUpTo(inp, n, nextId) == Ok([])
  {
    if n > 0 {
      NothingLeft(inp, n - 1, nextId);
      assert inp.targets[n - 1] in inp.targets;
    }
  }

  /** Weight zero closes the whole position exactly when the holding is a whole number of shares. */
  lemma ExitFlattensIff(inp: SizerInput, t: Target)
    requires t.key in inp.instruments && inp.instruments[t.key] in inp.prices && PriceOf(inp, t.key) > 0.0
    requires t.weight == 0.0
    ensures CurrentQty(inp, t.key) + Shares(inp, t) as real == 0.0 <==>
            CurrentQty(inp, t.key) == CurrentQty(inp, t.key).Floor as real
  {
  }
}
