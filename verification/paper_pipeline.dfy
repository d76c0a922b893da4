/** The single-instrument paper run: a closed system in which solvency can be proved. */
module PaperPipeline {
  import opened Domain
  import opened EventQueue
  import opened Rounding
  import opened Positions
  import opened Sums
  import opened Ledgers
  import opened Sizing
  import opened SizingInMoney
  import opened Risk
  import opened PaperBrokerModel
  import opened PaperBrokerAdapter
  import opened PaperFilling

  /** `key` is the strategy's own name for the instrument, under which the position is kept. */
  datatype PaperConfig = PaperConfig(
    strategyId: string, key: string, instrument: Instrument, navSlice: real, leverage: real, artefacts: seq<Artefact>)

  datatype PaperPoint = PaperPoint(time: int, cash: real, quantity: real, mark: real, equity: real)

  datatype PaperState = PaperState(ledger: Ledger, fills: nat, breaches: seq<Breach>, curve: seq<PaperPoint>)

  datatype PaperError =
    | ClockBackwards
    | SizingFailed(sizing: SizerError)
    | DrainHangs
    | BookingFailed(booking: ApplyError)

  // ---- Books ---------------------------------------------------------------

  /** Book a fill under the strategy's key. */
  function SettleUnder(l: Ledger, key: string, f: Fill, strategyId: string, now: int): Result<Ledger, ApplyError> {
    match ApplyFill(Held(l, key), f, strategyId, now)
    case Err(e) => Err(e)
    case Ok(p) => Ok(Ledger(l.cash - CashFlow(f), l.positions[key := p]))
  }

  function Commissions(fills: seq<Fill>): real {
    if fills == [] then 0.0 else Commissions(fills[..|fills| - 1]) + fills[|fills| - 1].commission
  }

  /** One position at most, ours; cash and quantity are what the fills leave of the starting cash. */
  ghost predicate PaperBooks(l: Ledger, cfg: PaperConfig, start: real, fills: seq<Fill>) {
    && l.positions.Keys <= {cfg.key}
    && (cfg.key in l.positions ==>
          l.positions[cfg.key].strategyId == cfg.strategyId && l.positions[cfg.key].instrument == cfg.instrument)
    && l.cash == start - SignedNotional(fills) - Commissions(fills)
    && Qty(Held(l, cfg.key)) == SignedSum(fills)
  }

  lemma BooksSettle(l: Ledger, cfg: PaperConfig, start: real, fills: seq<Fill>, f: Fill, now: int)
    requires PaperBooks(l, cfg, start, fills) && f.instrument == cfg.instrument
    ensures var s := SettleUnder(l, cfg.key, f, cfg.strategyId, now);
            s.Ok? && PaperBooks(s.value, cfg, start, fills + [f])
            && s.value.cash == l.cash - CashFlow(f)
            && Qty(Held(s.value, cfg.key)) == Qty(Held(l, cfg.key)) + Signed(f)
  {
    assert (fills + [f])[..|fills|] == fills;
    ApplyFillQuantity(Held(l, cfg.key), f, cfg.strategyId, now);
  }

  function FlatMarks(l: Ledger, price: real): map<string, real> {
    map sym | sym in l.positions :: price
  }

  lemma SingleEquity(l: Ledger, key: string, price: real)
    requires l.positions.Keys <= {key}
    ensures Equity(l, FlatMarks(l, price)) == SoloEquity(l, key, price)
  {
    var vs := Values(l.positions, FlatMarks(l, price));
    if key in l.positions {
      MapSumRemove(vs, key);
      assert vs - {key} == map[];
    } else {
      assert vs == map[];
    }
  }

  // ---- Solvency of one trade -----------------------------------------------

  predicate Whole(q: real) {
    q == q.Floor as real
  }

  /** Cash in hand and a whole, non-negative holding. */
  predicate Wealthy(cash: real, q: real) {
    cash > 0.0 && q >= 0.0 && Whole(q)
  }

  lemma CapitalBounds(inp: SizerInput, weight: real)
    requires inp.equity > 0.0 && 0.0 < inp.navSlice <= 0.1 && 0.0 <= weight <= 1.0
    ensures 0.0 <= EffectiveCapital(inp) * weight <= inp.equity * 0.1
  {
    var capital := EffectiveCapital(inp);
    assert 0.0 <= capital <= inp.equity * 0.1;
    Fraction(capital, weight, inp.equity * 0.1);
  }

  lemma Fraction(x: real, w: real, cap: real)
    requires 0.0 <= x <= cap && 0.0 <= w <= 1.0
    ensures 0.0 <= x * w <= cap
  {
    assert x * w <= x * 1.0;
  }

  lemma DesiredBounds(inp: SizerInput, t: Target)
    requires inp.equity > 0.0 && 0.0 < inp.navSlice <= 0.1 && 0.0 <= t.weight <= 1.0
    requires t.key in inp.instruments && inp.instruments[t.key] in inp.prices && PriceOf(inp, t.key) > 0.0
    ensures Desired(inp, t) >= 0.0 && Desired(inp, t) * PriceOf(inp, t.key) <= inp.equity * 0.1
  {
    CapitalBounds(inp, t.weight);
    if t.weight == 0.0 {
      Zero(Desired(inp, t), PriceOf(inp, t.key));
    } else {
      DivBack(EffectiveCapital(inp) * t.weight, PriceOf(inp, t.key), inp.equity * 0.1);
    }
  }

  lemma Zero(x: real, y: real)
    requires x == 0.0
    ensures x * y == 0.0
  {
  }

  lemma DivBack(x: real, y: real, cap: real)
    requires y > 0.0 && 0.0 <= x <= cap
    ensures x / y >= 0.0 && (x / y) * y <= cap
  {
    assert (x / y) * y == x;
  }

  /** Buying at most a tenth of equity, at a commission no larger than the price, keeps four fifths of the cash. */
  lemma BuyKeepsCash(c: real, q: real, p: real, cps: real, d: real, n: real)
    requires c > 0.0 && q >= 0.0 && p > 0.0 && 0.0 <= cps <= p
    requires d * p <= (c + q * p) * 0.1 && 0.0 <= n <= d - q
    ensures c - (n * p + cps * n) >= 0.8 * c
  {
    assert cps * n <= p * n;
    assert n * p <= (d - q) * p == d * p - q * p;
    assert q * p >= 0.0;
  }

  lemma SellKeepsCash(c: real, p: real, cps: real, n: real)
    requires n <= 0.0 && 0.0 <= cps <= p
    ensures c - (n * p + cps * -n) >= c
  {
    assert (p - cps) * -n >= 0.0;
    assert (p - cps) * -n == -(n * p) - cps * -n;
  }

  lemma TruncateSteps(k: int, d: real)
    requires k >= 0 && d >= 0.0
    ensures var n := Truncate(d - k as real);
            k + n >= 0 && (n > 0 ==> n as real <= d - k as real)
  {
  }

  lemma WholeSum(q: real, n: int)
    requires Whole(q)
    ensures Whole(q + n as real) && q + n as real == (q.Floor + n) as real
  {
  }

  ghost predicate Modest(cfg: PaperConfig, weight: real, price: real, cps: real) {
    0.0 < cfg.navSlice <= 0.1 && 0.0 <= weight <= 1.0 && price > 0.0 && 0.0 <= cps <= price
  }

  /** What trading `x` shares costs, bought or sold. */
  function Cost(x: real, price: real, cps: real): real {
    x * price + cps * Abs(x)
  }

  /** Trading whole shares toward a holding worth at most a tenth of equity keeps a wealthy account wealthy. */
  lemma TradeStaysWealthy(c: real, q: real, price: real, cps: real, desired: real, n: int)
    requires Wealthy(c, q) && price > 0.0 && 0.0 <= cps <= price
    requires desired >= 0.0 && desired * price <= (c + q * price) * 0.1 && n == Truncate(desired - q)
    ensures Wealthy(c - Cost(n as real, price, cps), q + n as real)
  {
    TruncateSteps(q.Floor, desired);
    WholeSum(q, n);
    if n > 0 {
      BuyKeepsCash(c, q, price, cps, desired, n as real);
    } else {
      SellKeepsCash(c, price, cps, n as real);
    }
  }

  /** A wealthy account trading toward a holding worth at most a tenth of its equity. */
  ghost predicate SmallTarget(c: real, q: real, desired: real, price: real) {
    Wealthy(c, q) && desired >= 0.0 && desired * price <= (c + q * price) * 0.1
  }

  /** At this price and commission, every such trade leaves the account wealthy. */
  ghost predicate AlwaysWealthy(price: real, cps: real) {
    forall c, q, desired :: SmallTarget(c, q, desired, price) ==>
      var n := Truncate(desired - q);
      Wealthy(c - Cost(n as real, price, cps), q + n as real)
  }

  /** The commission bound is exact: above the price, selling one share can cost more than the account has. */
  lemma WealthyIffCommissionBelowPrice(price: real, cps: real)
    requires price > 0.0 && cps >= 0.0
    ensures AlwaysWealthy(price, cps) <==> cps <= price
  {
    if cps <= price {
      forall c, q, desired | SmallTarget(c, q, desired, price)
        ensures var n := Truncate(desired - q);
                Wealthy(c - Cost(n as real, price, cps), q + n as real)
      {
        TradeStaysWealthy(c, q, price, cps, desired, Truncate(desired - q));
      }
    } else {
      var c := cps - price;
      assert SmallTarget(c, 1.0, 0.0, price) && Truncate(0.0 - 1.0) == -1;
    }
  }

  // ---- One bar -------------------------------------------------------------

  /** What the sizer is given for a bar: one target under the strategy's key. */
  function InputFor(l: Ledger, cfg: PaperConfig, price: real, weight: real, equity: real): SizerInput {
    SizerInput([Target(cfg.key, weight)], equity, cfg.navSlice, l.positions,
               map[cfg.key := cfg.instrument], map[cfg.instrument := price], cfg.strategyId)
  }

  function OrderFor(cfg: PaperConfig, shares: int, id: OrderId): Order {
    Order(id, cfg.strategyId, cfg.instrument, if shares > 0 then Buy else Sell,
          if shares > 0 then shares as real else -shares as real, Mkt, None, None)
  }

  /** What trading `n` shares leaves is a wealthy account. */
  ghost predicate Affordable(l: Ledger, cfg: PaperConfig, n: int, price: real, cps: real) {
    Wealthy(l.cash - Cost(n as real, price, cps), Qty(Held(l, cfg.key)) + n as real)
  }

  /** The account is wealthy and this rebalance is a modest one. */
  ghost predicate Solvent(l: Ledger, cfg: PaperConfig, weight: real, price: real, cps: real) {
    Wealthy(l.cash, Qty(Held(l, cfg.key))) && Modest(cfg, weight, price, cps)
  }

  /** The shares due at a price and weight. */
  function DueShares(l: Ledger, cfg: PaperConfig, price: real, weight: real): int
    requires price > 0.0
  {
    Shares(InputFor(l, cfg, price, weight, SoloEquity(l, cfg.key, price)), Target(cfg.key, weight))
  }

  function SoloEquity(l: Ledger, key: string, price: real): real {
    l.cash + Qty(Held(l, key)) * price
  }

  lemma SolventEquity(l: Ledger, cfg: PaperConfig, price: real)
    requires Wealthy(l.cash, Qty(Held(l, cfg.key))) && price > 0.0
    ensures SoloEquity(l, cfg.key, price) > 0.0
  {
    assert Qty(Held(l, cfg.key)) * price >= 0.0;
  }

  /** A solvent account can afford the shares that come due. */
  lemma SolventSizes(l: Ledger, cfg: PaperConfig, price: real, weight: real, cps: real)
    requires Solvent(l, cfg, weight, price, cps)
    ensures Affordable(l, cfg, DueShares(l, cfg, price, weight), price, cps)
  {
    var inp, t := InputFor(l, cfg, price, weight, SoloEquity(l, cfg.key, price)), Target(cfg.key, weight);
    SolventEquity(l, cfg, price);
    DesiredBounds(inp, t);
    assert PriceOf(inp, t.key) == price && CurrentQty(inp, t.key) == Qty(Held(l, cfg.key));
    TradeStaysWealthy(l.cash, Qty(Held(l, cfg.key)), price, cps, Desired(inp, t), Shares(inp, t));
  }

  /** Orders for the one target: `n` shares, or nothing. */
  method SizePaper(l: Ledger, cfg: PaperConfig, price: real, weight: real, nextId: OrderId)
    returns (r: Result<seq<Order>, SizerError>, ghost n: int)
    requires l.positions.Keys <= {cfg.key}
    ensures r.Ok? <==> cfg.navSlice > 0.0 && SoloEquity(l, cfg.key, price) > 0.0 && -1.0 <= weight <= 1.0 && price > 0.0
    ensures r.Ok? ==>
              && n == DueShares(l, cfg, price, weight)
              && r.value == if n == 0 then [] else [OrderFor(cfg, n, nextId)]
  {
    SingleEquity(l, cfg.key, price);
    var equity := ComputeEquity(l, FlatMarks(l, price));
    assert equity == SoloEquity(l, cfg.key, price);
    var inp := InputFor(l, cfg, price, weight, equity);
    r := SizeOrders(inp, nextId);
    SizedOne(inp, nextId);
    n := if r.Ok? then Shares(inp, Target(cfg.key, weight)) else 0;
  }

  lemma SizedOne(inp: SizerInput, nextId: OrderId)
    requires |inp.targets| == 1 && Resolvable(inp)
    ensures var t, r := inp.targets[0], Sized(inp, nextId);
            && (r.Ok? <==>
                inp.navSlice > 0.0 && inp.equity > 0.0 && -1.0 <= t.weight <= 1.0 && PriceOf(inp, t.key) > 0.0)
            && (r.Ok? ==> var n := Shares(inp, t); r.value == if n == 0 then [] else [MarketOrder(inp, t, n, nextId)])
  {
    assert SizedUpTo(inp, 0, nextId) == Ok([]);
  }

  /** A whole fill of the order at the price. */
  ghost predicate FillsOrder(f: Fill, order: Order, price: real, cps: real, t: int) {
    && ValidFill(f) && f.instrument == order.instrument && f.side == order.side && f.quantity == order.quantity
    && f.price == price && f.commission == cps * order.quantity && f.time == t
  }

  ghost predicate PaperPass(c: RiskConfig, armed: bool, cfg: PaperConfig, o: Order, bar: Bar) {
    forall k :: k in CHECK_ORDER ==>
      Passes(c, k, armed, o, RiskInputs(Some(bar), true, cfg.artefacts, None), bar.closeTime)
  }

  /** Gate, submit, wait, book: a fill exactly when every check passes. */
  method TradePaper(broker: PaperBroker, engine: RiskEngine, cfg: PaperConfig, l: Ledger, order: Order, bar: Bar,
                    ghost start: real, ghost fills: seq<Fill>)
    returns (r: Result<Ledger, PaperError>, breaches: seq<Breach>, fill: Option<Fill>)
    requires Rested(broker) && PaperBooks(l, cfg, start, fills)
    requires order.orderType == Mkt && order.instrument == cfg.instrument
    modifies broker
    ensures Rested(broker)
    ensures r.Ok? && fill.None? ==> r.value == l
    ensures r.Ok? ==> (fill.Some? <==> PaperPass(engine.config, engine.killSwitch.armed, cfg, order, bar))
    ensures r.Ok? && fill.Some? ==>
              && SettleUnder(l, cfg.key, fill.value, cfg.strategyId, bar.closeTime) == Ok(r.value)
              && FillsOrder(fill.value, order, bar.close, broker.commissionPerShare, bar.closeTime)
              && PaperBooks(r.value, cfg, start, fills + [fill.value])
              && r.value.cash == l.cash - CashFlow(fill.value)
              && Qty(Held(r.value, cfg.key)) == Qty(Held(l, cfg.key)) + Signed(fill.value)
    ensures order.quantity > 0.0 && bar.close > 0.0 && broker.commissionPerShare >= 0.0 ==> r.Ok?
    ensures engine.killSwitch.armed ==> r.Ok? && fill.None?
  {
    var t := bar.closeTime;
    fill := None;
    var approved;
    approved, breaches := engine.Approve(order, RiskInputs(Some(bar), true, cfg.artefacts, None), t);
    if approved.None? {
      return Ok(l), breaches, None;
    }
    assert CHECK_ORDER[0] in CHECK_ORDER;
    r, fill := FillAndBook(broker, cfg, l, order, bar, start, fills);
  }

  /** Submit the approved order, wait for its fill, and book it. */
  method FillAndBook(broker: PaperBroker, cfg: PaperConfig, l: Ledger, order: Order, bar: Bar, ghost start: real,
                     ghost fills: seq<Fill>)
    returns (r: Result<Ledger, PaperError>, fill: Option<Fill>)
    requires Rested(broker) && PaperBooks(l, cfg, start, fills)
    requires order.orderType == Mkt && order.instrument == cfg.instrument
    modifies broker
    ensures Rested(broker)
    ensures r.Ok? ==>
              && fill.Some? && SettleUnder(l, cfg.key, fill.value, cfg.strategyId, bar.closeTime) == Ok(r.value)
              && FillsOrder(fill.value, order, bar.close, broker.commissionPerShare, bar.closeTime)
              && PaperBooks(r.value, cfg, start, fills + [fill.value])
              && r.value.cash == l.cash - CashFlow(fill.value)
              && Qty(Held(r.value, cfg.key)) == Qty(Held(l, cfg.key)) + Signed(fill.value)
    ensures order.quantity > 0.0 && bar.close > 0.0 && broker.commissionPerShare >= 0.0 ==> r.Ok?
  {
    var t := bar.closeTime;
    FillValid(PaperFill(Lifecycle(order, broker.nextSeq, AtAck), bar.close, broker.commissionPerShare, t),
              order, broker.commissionPerShare);
    fill := FillOrder(broker, order, bar.close, t);
    if fill.None? {
      return Err(DrainHangs), None;
    }
    BooksSettle(l, cfg, start, fills, fill.value, t);
    r := Ok(SettleUnder(l, cfg.key, fill.value, cfg.strategyId, t).value);
  }

  lemma FillValid(f: Fill, order: Order, cps: real)
    requires f.quantity == order.quantity && f.commission == cps * order.quantity && f.execId != ""
    ensures order.quantity > 0.0 && f.price > 0.0 && cps >= 0.0 ==> ValidFill(f)
  {
    if order.quantity > 0.0 && cps >= 0.0 {
      assert cps * order.quantity >= 0.0;
    }
  }

  /** The fill of an order at a close, but for the ids the broker mints. */
  function FillAt(o: Order, bar: Bar, cps: real): Fill {
    Fill(o.id, "", o.instrument, o.side, o.quantity, bar.close, cps * o.quantity, bar.closeTime)
  }

  /** The ledger after `n` shares came due: booked whole at the close if the gate lets them through. */
  ghost function TradedLedger(l: Ledger, cfg: PaperConfig, c: RiskConfig, armed: bool, cps: real, n: int, id: OrderId,
                              bar: Bar): Ledger {
    var o := OrderFor(cfg, n, id);
    var booked := SettleUnder(l, cfg.key, FillAt(o, bar, cps), cfg.strategyId, bar.closeTime);
    if n != 0 && PaperPass(c, armed, cfg, o, bar) && booked.Ok? then booked.value else l
  }

  lemma BookedAsDue(l: Ledger, l': Ledger, cfg: PaperConfig, f: Fill, o: Order, bar: Bar, cps: real)
    requires FillsOrder(f, o, bar.close, cps, bar.closeTime)
    requires SettleUnder(l, cfg.key, f, cfg.strategyId, bar.closeTime) == Ok(l')
    ensures SettleUnder(l, cfg.key, FillAt(o, bar, cps), cfg.strategyId, bar.closeTime) == Ok(l')
  {
    var g := FillAt(o, bar, cps);
    SameBooking(f, g, Held(l, cfg.key), cfg.strategyId, bar.closeTime);
  }

  lemma SameBooking(f: Fill, g: Fill, p: Option<Position>, strategyId: string, now: int)
    requires f.instrument == g.instrument && f.side == g.side && f.quantity == g.quantity && f.price == g.price
    requires f.commission == g.commission && f.time == g.time
    ensures CashFlow(f) == CashFlow(g) && ApplyFill(p, f, strategyId, now) == ApplyFill(p, g, strategyId, now)
  {
  }

  lemma CostOfOrder(f: Fill, cfg: PaperConfig, n: int, price: real, cps: real, id: OrderId, t: int)
    requires n != 0 && FillsOrder(f, OrderFor(cfg, n, id), price, cps, t)
    ensures Signed(f) == n as real && CashFlow(f) == Cost(n as real, price, cps)
  {
    assert f.quantity == Abs(n as real);
  }

  // ---- The run -------------------------------------------------------------

  /** What the strategy, the data and the configuration promise for solvency. */
  ghost predicate Thrifty(cfg: PaperConfig, bars: seq<Bar>, series: map<int, int>, cps: real) {
    && SortedBars(bars) && 0.0 < cfg.navSlice <= 0.1 && 0.0 <= cfg.leverage <= 1.0 && cps >= 0.0
    && (forall t :: t in series ==> series[t] == 0 || series[t] == 1)
    && (forall b :: b in bars ==> b.close > 0.0 && cps <= b.close)
  }

  function WeightFor(position: int, leverage: real): real {
    position as real * leverage
  }

  lemma ThriftyBar(cfg: PaperConfig, bars: seq<Bar>, series: map<int, int>, cps: real, b: Bar)
    requires Thrifty(cfg, bars, series, cps) && b in bars && b.closeTime in series
    ensures Modest(cfg, WeightFor(series[b.closeTime], cfg.leverage), b.close, cps)
  {
    var k := series[b.closeTime];
    assert WeightFor(k, cfg.leverage) == if k == 0 then 0.0 else cfg.leverage;
  }

  /** An equity point accounts for exactly these fills, at its own mark. */
  ghost predicate PaperPointOk(p: PaperPoint, start: real, fills: seq<Fill>) {
    && p.cash == start - SignedNotional(fills) - Commissions(fills)
    && p.quantity == SignedSum(fills)
    && p.equity == p.cash + p.quantity * p.mark
  }

  /** At most one new fill, at this bar's close and time. */
  ghost predicate OneMore(fills: seq<Fill>, fills': seq<Fill>, bar: Bar) {
    && fills <= fills' && |fills'| <= |fills| + 1
    && (|fills'| > |fills| ==> fills'[|fills|].price == bar.close && fills'[|fills|].time == bar.closeTime)
  }

  /** At most one new fill, at this bar's close and time, then one equity point. */
  ghost predicate Rebalanced(s: PaperState, s': PaperState, cfg: PaperConfig, start: real, fills: seq<Fill>,
                             fills': seq<Fill>, bar: Bar) {
    && PaperBooks(s'.ledger, cfg, start, fills') && s'.fills == |fills'|
    && OneMore(fills, fills', bar)
    && |s'.curve| == |s.curve| + 1 && s.curve <= s'.curve
    && var p := s'.curve[|s.curve|];
    && PaperPointOk(p, start, fills') && p.time == bar.closeTime && p.mark == bar.close
    && p.cash == s'.ledger.cash && p.quantity == Qty(Held(s'.ledger, cfg.key))
  }

  /** Wealthy whether or not the trade goes through. */
  ghost predicate Covered(l: Ledger, cfg: PaperConfig, n: int, price: real, cps: real) {
    Wealthy(l.cash, Qty(Held(l, cfg.key))) && Affordable(l, cfg, n, price, cps)
  }

  lemma CoveredAfter(l: Ledger, l': Ledger, cfg: PaperConfig, f: Fill, n: int, price: real, cps: real, id: OrderId,
                     t: int)
    requires n != 0 && FillsOrder(f, OrderFor(cfg, n, id), price, cps, t)
    requires l'.cash == l.cash - CashFlow(f) && Qty(Held(l', cfg.key)) == Qty(Held(l, cfg.key)) + Signed(f)
    ensures Covered(l, cfg, n, price, cps) ==> Wealthy(l'.cash, Qty(Held(l', cfg.key)))
  {
    CostOfOrder(f, cfg, n, price, cps, id, t);
  }

  /** Trade the sizer's orders, of which there is at most one. */
  method TradeOrders(broker: PaperBroker, engine: RiskEngine, cfg: PaperConfig, s: PaperState, orders: seq<Order>,
                     bar: Bar,
                     ghost n: int, ghost id: OrderId, ghost start: real, ghost fills: seq<Fill>)
    returns (r: Result<PaperState, PaperError>, ghost fills': seq<Fill>)
    requires Rested(broker) && PaperBooks(s.ledger, cfg, start, fills) && s.fills == |fills|
    requires orders == if n == 0 then [] else [OrderFor(cfg, n, id)]
    requires bar.close > 0.0
    modifies broker
    ensures Rested(broker)
    ensures r.Ok? ==> PaperBooks(r.value.ledger, cfg, start, fills') && r.value.fills == |fills'|
    ensures r.Ok? ==> r.value.curve == s.curve && OneMore(fills, fills', bar)
    ensures r.Ok? && engine.killSwitch.armed ==> fills' == fills
    ensures broker.commissionPerShare >= 0.0 ==> r.Ok?
    ensures r.Ok? ==> r.value.ledger == TradedLedger(s.ledger, cfg, engine.config, engine.killSwitch.armed,
                                                     broker.commissionPerShare, n, id, bar)
    ensures r.Ok? && Covered(s.ledger, cfg, n, bar.close, broker.commissionPerShare) ==>
              Wealthy(r.value.ledger.cash, Qty(Held(r.value.ledger, cfg.key)))
  {
    fills' := fills;
    var cur := s;
    for k := 0 to |orders|
      invariant Rested(broker) && PaperBooks(cur.ledger, cfg, start, fills') && cur.fills == |fills'|
      invariant k == 0 ==> cur == s && fills' == fills
      invariant k == 1 ==> cur.ledger == TradedLedger(s.ledger, cfg, engine.config, engine.killSwitch.armed,
                                                      broker.commissionPerShare, n, id, bar)
      invariant cur.curve == s.curve && OneMore(fills, fills', bar)
      invariant engine.killSwitch.armed ==> fills' == fills
      invariant Covered(s.ledger, cfg, n, bar.close, broker.commissionPerShare) ==>
                  Wealthy(cur.ledger.cash, Qty(Held(cur.ledger, cfg.key)))
    {
      var traded, more, fill := TradePaper(broker, engine, cfg, cur.ledger, orders[k], bar, start, fills');
      if traded.Err? {
        return Err(traded.error), fills';
      }
      cur := PaperState(traded.value, cur.fills, cur.breaches + more, cur.curve);
      if fill.Some? {
        BookedAsDue(s.ledger, traded.value, cfg, fill.value, OrderFor(cfg, n, id), bar, broker.commissionPerShare);
        CoveredAfter(s.ledger, cur.ledger, cfg, fill.value, n, bar.close, broker.commissionPerShare, id, bar.closeTime);
        cur := cur.(fills := cur.fills + 1);
        fills' := fills' + [fill.value];
      }
    }
    r := Ok(cur);
  }

  /** Cash, holding and the curve so far. */
  function BooksOf(s: PaperState): (Ledger, seq<PaperPoint>) {
    (s.ledger, s.curve)
  }

  function PointAt(l: Ledger, cfg: PaperConfig, bar: Bar): PaperPoint {
    var q := Qty(Held(l, cfg.key));
    PaperPoint(bar.closeTime, l.cash, q, bar.close, l.cash + q * bar.close)
  }

  /** One rebalance as a function: the due shares traded if the gate lets them, then one equity point. */
  ghost function Rebooked(b: (Ledger, seq<PaperPoint>), cfg: PaperConfig, c: RiskConfig, armed: bool, cps: real,
                          bar: Bar, weight: real, id: OrderId): (Ledger, seq<PaperPoint>)
    requires bar.close > 0.0
  {
    var l := TradedLedger(b.0, cfg, c, armed, cps, DueShares(b.0, cfg, bar.close, weight), id, bar);
    (l, b.1 + [PointAt(l, cfg, bar)])
  }

  // ---- The holding against the position series ---------------------------------

  /** What lets the sizer's orders through at a close: the bar is the newest there can be, so only a negative
      staleness limit would call it old. */
  ghost predicate GateOpen(c: RiskConfig, armed: bool, cfg: PaperConfig, now: int) {
    && !armed && 0 <= (if c.isIntraday then c.maxStalenessIntradaySec else c.maxStalenessDailySec)
    && forall a :: a in cfg.artefacts ==>
         a.present && c.maxArtefactAgeDays > 0 && now - a.mtime < 86400000000 * c.maxArtefactAgeDays
  }

  lemma PassesIffOpen(c: RiskConfig, armed: bool, cfg: PaperConfig, o: Order, bar: Bar)
    requires o.orderType == Mkt
    ensures PaperPass(c, armed, cfg, o, bar) <==> GateOpen(c, armed, cfg, bar.closeTime)
  {
    GateMeans(c, armed, o, RiskInputs(Some(bar), true, cfg.artefacts, None), bar.closeTime);
  }

  /** A holding moved toward what `due` buys, to within one share's price of it. */
  predicate MovedTo(from: real, q: real, due: real, price: real)
    requires price > 0.0
  {
    && -price < due - q * price < price
    && (from <= q <= due / price || due / price <= q <= from)
  }

  /** What the series asks to have in the market: the position's part, at the leverage, of the slice of equity. */
  function DueFor(cfg: PaperConfig, cash: real, q: real, position: int, price: real): real {
    (cash + q * price) * cfg.navSlice * (position as real * cfg.leverage)
  }

  /** Whole shares were traded, at the price and with the per-share commission. */
  predicate BoughtFor(cash: real, q: real, cash': real, q': real, price: real, cps: real) {
    Whole(q' - q) && cash' == cash - (q' - q) * price - cps * (if q' >= q then q' - q else q - q')
  }

  /** What one scheduled close does to cash `cash` and holding `q`, when the series says `position`. An open gate
      trades whole shares toward the position's part of the slice of equity, to within one share's price, and pays
      for them with commission; a closed one trades nothing. */
  ghost predicate Follows(cfg: PaperConfig, c: RiskConfig, armed: bool, cps: real, cash: real, q: real, position: int,
                          bar: Bar, p: PaperPoint) {
    && p.time == bar.closeTime && p.mark == bar.close > 0.0 && p.equity == p.cash + p.quantity * p.mark
    && if GateOpen(c, armed, cfg, bar.closeTime) then
         && MovedTo(q, p.quantity, DueFor(cfg, cash, q, position, bar.close), bar.close)
         && BoughtFor(cash, q, p.cash, p.quantity, bar.close, cps)
       else p.quantity == q && p.cash == cash
  }

  function CashAfter(start: real, curve: seq<PaperPoint>): real {
    if curve == [] then start else curve[|curve| - 1].cash
  }

  function HeldAfter(curve: seq<PaperPoint>): real {
    if curve == [] then 0.0 else curve[|curve| - 1].quantity
  }

  /** One point per scheduled bar, each following the series from the point before. */
  ghost predicate FollowsSeries(cfg: PaperConfig, c: RiskConfig, armed: bool, cps: real, start: real,
                                series: map<int, int>, bars: seq<Bar>, curve: seq<PaperPoint>) {
    if bars == [] then curve == []
    else
      var init, bar := bars[..|bars| - 1], bars[|bars| - 1];
      if bar.closeTime !in series then FollowsSeries(cfg, c, armed, cps, start, series, init, curve)
      else
        curve != [] &&
        var before := curve[..|curve| - 1];
        && FollowsSeries(cfg, c, armed, cps, start, series, init, before)
        && Follows(cfg, c, armed, cps, CashAfter(start, before), HeldAfter(before), series[bar.closeTime], bar,
                   curve[|curve| - 1])
  }

  /** Out of the market: after a close at which the series says zero and the gate is open, no share is held. */
  lemma FlatWhenOut(cfg: PaperConfig, c: RiskConfig, armed: bool, cps: real, start: real, series: map<int, int>,
                    bars: seq<Bar>, curve: seq<PaperPoint>)
    requires bars != [] && FollowsSeries(cfg, c, armed, cps, start, series, bars, curve)
    requires var t := bars[|bars| - 1].closeTime; t in series && series[t] == 0 && GateOpen(c, armed, cfg, t)
    ensures curve != [] && curve[|curve| - 1].quantity == 0.0
  {
    var bar, before := bars[|bars| - 1], curve[..|curve| - 1];
    HoldingsWhole(cfg, c, armed, cps, start, series, bars[..|bars| - 1], before);
    OutAt(cfg, c, armed, cps, CashAfter(start, before), HeldAfter(before), bar, curve[|curve| - 1]);
  }

  lemma {:induction false} HoldingsWhole(cfg: PaperConfig, c: RiskConfig, armed: bool, cps: real, start: real,
                                         series: map<int, int>, bars: seq<Bar>, curve: seq<PaperPoint>)
    requires FollowsSeries(cfg, c, armed, cps, start, series, bars, curve)
    ensures Whole(HeldAfter(curve))
  {
    if bars != [] {
      var init, bar := bars[..|bars| - 1], bars[|bars| - 1];
      if bar.closeTime !in series {
        HoldingsWhole(cfg, c, armed, cps, start, series, init, curve);
      } else {
        var before, p := curve[..|curve| - 1], curve[|curve| - 1];
        HoldingsWhole(cfg, c, armed, cps, start, series, init, before);
        StaysWhole(cfg, c, armed, cps, CashAfter(start, before), HeldAfter(before), series[bar.closeTime], bar, p);
      }
    }
  }

  lemma StaysWhole(cfg: PaperConfig, c: RiskConfig, armed: bool, cps: real, cash: real, q: real, position: int,
                   bar: Bar, p: PaperPoint)
    requires Follows(cfg, c, armed, cps, cash, q, position, bar, p) && Whole(q)
    ensures Whole(p.quantity)
  {
    if GateOpen(c, armed, cfg, bar.closeTime) {
      WholeSum(q, (p.quantity - q).Floor);
    }
  }

  lemma OutAt(cfg: PaperConfig, c: RiskConfig, armed: bool, cps: real, cash: real, q: real, bar: Bar, p: PaperPoint)
    requires Follows(cfg, c, armed, cps, cash, q, 0, bar, p) && GateOpen(c, armed, cfg, bar.closeTime) && Whole(q)
    ensures p.quantity == 0.0
  {
    assert DueFor(cfg, cash, q, 0, bar.close) == 0.0;
    Scaled(p.quantity, bar.close, p.quantity * bar.close);
    StaysWhole(cfg, c, armed, cps, cash, q, 0, bar, p);
  }

  lemma DueInMoney(l: Ledger, cfg: PaperConfig, price: real, position: int, n: int, q: real)
    requires price > 0.0 && n == DueShares(l, cfg, price, WeightFor(position, cfg.leverage))
    requires q == Qty(Held(l, cfg.key)) + n as real
    ensures MovedTo(Qty(Held(l, cfg.key)), q, DueFor(cfg, l.cash, Qty(Held(l, cfg.key)), position, price), price)
  {
    var weight := WeightFor(position, cfg.leverage);
    var inp, t := InputFor(l, cfg, price, weight, SoloEquity(l, cfg.key, price)), Target(cfg.key, weight);
    TradeToward(CurrentQty(inp, t.key), Desired(inp, t));
    TowardInMoney(inp, t, q);
    HeldShows(l, cfg, price, position, q);
  }

  lemma HeldShows(l: Ledger, cfg: PaperConfig, price: real, position: int, q: real)
    requires price > 0.0
    requires var weight := WeightFor(position, cfg.leverage);
             HeldInMoney(InputFor(l, cfg, price, weight, SoloEquity(l, cfg.key, price)), Target(cfg.key, weight), q)
    ensures MovedTo(Qty(Held(l, cfg.key)), q, DueFor(cfg, l.cash, Qty(Held(l, cfg.key)), position, price), price)
  {
  }

  /** At most the strategy's own position. */
  ghost predicate OwnLedger(l: Ledger, cfg: PaperConfig) {
    cfg.key in l.positions ==>
      l.positions[cfg.key].strategyId == cfg.strategyId && l.positions[cfg.key].instrument == cfg.instrument
  }

  lemma RebookedFollows(l: Ledger, curve: seq<PaperPoint>, cfg: PaperConfig, c: RiskConfig, armed: bool, cps: real,
                        bar: Bar, position: int, id: OrderId)
    requires OwnLedger(l, cfg) && bar.close > 0.0
    ensures var r := Rebooked((l, curve), cfg, c, armed, cps, bar, WeightFor(position, cfg.leverage), id);
            && |r.1| == |curve| + 1 && r.1[..|curve|] == curve
            && Follows(cfg, c, armed, cps, l.cash, Qty(Held(l, cfg.key)), position, bar, r.1[|curve|])
            && r.1[|curve|].cash == r.0.cash && r.1[|curve|].quantity == Qty(Held(r.0, cfg.key))
            && OwnLedger(r.0, cfg)
  {
    var weight := WeightFor(position, cfg.leverage);
    var n := DueShares(l, cfg, bar.close, weight);
    var l' := TradedLedger(l, cfg, c, armed, cps, n, id, bar);
    TradedInMoney(l, cfg, c, armed, cps, n, id, bar);
    PointAppended(curve, PointAt(l', cfg, bar));
    if GateOpen(c, armed, cfg, bar.closeTime) {
      TradeInMoney(l, l', cfg, cps, position, bar, n);
      OpenFollows(l, l', cfg, c, armed, cps, position, bar);
    } else {
      ClosedFollows(l, cfg, c, armed, cps, position, bar);
    }
  }

  lemma PointAppended(curve: seq<PaperPoint>, p: PaperPoint)
    ensures (curve + [p])[..|curve|] == curve
  {
  }

  lemma ClosedFollows(l: Ledger, cfg: PaperConfig, c: RiskConfig, armed: bool, cps: real, position: int, bar: Bar)
    requires bar.close > 0.0 && !GateOpen(c, armed, cfg, bar.closeTime)
    ensures Follows(cfg, c, armed, cps, l.cash, Qty(Held(l, cfg.key)), position, bar, PointAt(l, cfg, bar))
  {
  }

  lemma TradeInMoney(l: Ledger, l': Ledger, cfg: PaperConfig, cps: real, position: int, bar: Bar, n: int)
    requires bar.close > 0.0 && n == DueShares(l, cfg, bar.close, WeightFor(position, cfg.leverage))
    requires PaidFor(l.cash, Qty(Held(l, cfg.key)), l'.cash, Qty(Held(l', cfg.key)), n, bar.close, cps)
    ensures MovedTo(Qty(Held(l, cfg.key)), Qty(Held(l', cfg.key)),
                    DueFor(cfg, l.cash, Qty(Held(l, cfg.key)), position, bar.close), bar.close)
    ensures BoughtFor(l.cash, Qty(Held(l, cfg.key)), l'.cash, Qty(Held(l', cfg.key)), bar.close, cps)
  {
    PaidInMoney(l.cash, Qty(Held(l, cfg.key)), l'.cash, Qty(Held(l', cfg.key)), n, bar.close, cps);
    DueInMoney(l, cfg, bar.close, position, n, Qty(Held(l', cfg.key)));
  }

  lemma OpenFollows(l: Ledger, l': Ledger, cfg: PaperConfig, c: RiskConfig, armed: bool, cps: real, position: int,
                    bar: Bar)
    requires bar.close > 0.0 && GateOpen(c, armed, cfg, bar.closeTime)
    requires MovedTo(Qty(Held(l, cfg.key)), Qty(Held(l', cfg.key)),
                     DueFor(cfg, l.cash, Qty(Held(l, cfg.key)), position, bar.close), bar.close)
    requires BoughtFor(l.cash, Qty(Held(l, cfg.key)), l'.cash, Qty(Held(l', cfg.key)), bar.close, cps)
    ensures Follows(cfg, c, armed, cps, l.cash, Qty(Held(l, cfg.key)), position, bar, PointAt(l', cfg, bar))
  {
  }

  /** Cash and holding after trading `n` shares. */
  predicate PaidFor(cash: real, q: real, cash': real, q': real, n: int, price: real, cps: real) {
    q' == q + n as real && cash' == cash - n as real * price - cps * (if n >= 0 then n as real else -(n as real))
  }

  lemma PaidInMoney(cash: real, q: real, cash': real, q': real, n: int, price: real, cps: real)
    requires PaidFor(cash, q, cash', q', n, price, cps)
    ensures BoughtFor(cash, q, cash', q', price, cps)
  {
    var x := q' - q;
    assert x == n as real;
    assert (if q' >= q then q' - q else q - q') == if n >= 0 then n as real else -(n as real);
  }

  lemma TradedInMoney(l: Ledger, cfg: PaperConfig, c: RiskConfig, armed: bool, cps: real, n: int, id: OrderId,
                      bar: Bar)
    requires OwnLedger(l, cfg)
    ensures OwnLedger(TradedLedger(l, cfg, c, armed, cps, n, id, bar), cfg)
    ensures var l', q := TradedLedger(l, cfg, c, armed, cps, n, id, bar), Qty(Held(l, cfg.key));
            if GateOpen(c, armed, cfg, bar.closeTime) then
              PaidFor(l.cash, q, l'.cash, Qty(Held(l', cfg.key)), n, bar.close, cps)
            else l' == l
  {
    var o := OrderFor(cfg, n, id);
    PassesIffOpen(c, armed, cfg, o, bar);
    ApplyFillQuantity(Held(l, cfg.key), FillAt(o, bar, cps), cfg.strategyId, bar.closeTime);
  }

  /** One rebalance of a scheduled bar. */
  method PaperRebalance(broker: PaperBroker, engine: RiskEngine, cfg: PaperConfig, s: PaperState, bar: Bar,
                        weight: real,
                        nextId: OrderId, ghost start: real, ghost fills: seq<Fill>)
    returns (r: Result<PaperState, PaperError>, ghost fills': seq<Fill>)
    requires Rested(broker) && PaperBooks(s.ledger, cfg, start, fills) && s.fills == |fills|
    modifies broker
    ensures Rested(broker)
    ensures r.Ok? ==> Rebalanced(s, r.value, cfg, start, fills, fills', bar)
    ensures r.Ok? ==> bar.close > 0.0 && BooksOf(r.value) ==
                      Rebooked(BooksOf(s), cfg, engine.config, engine.killSwitch.armed, broker.commissionPerShare,
                               bar, weight, nextId)
    ensures r.Ok? && engine.killSwitch.armed ==> fills' == fills
    ensures Solvent(s.ledger, cfg, weight, bar.close, broker.commissionPerShare) ==>
              r.Ok? && Wealthy(r.value.ledger.cash, Qty(Held(r.value.ledger, cfg.key)))
  {
    fills' := fills;
    if Solvent(s.ledger, cfg, weight, bar.close, broker.commissionPerShare) {
      SolventEquity(s.ledger, cfg, bar.close);
      SolventSizes(s.ledger, cfg, bar.close, weight, broker.commissionPerShare);
    }
    var sized, n := SizePaper(s.ledger, cfg, bar.close, weight, nextId);
    if sized.Err? {
      return Err(SizingFailed(sized.error)), fills';
    }
    var traded;
    traded, fills' := TradeOrders(broker, engine, cfg, s, sized.value, bar, n, nextId, start, fills);
    if traded.Err? {
      return traded, fills';
    }
    var point := MarkPaper(traded.value.ledger, cfg, bar, start, fills');
    r := Ok(traded.value.(curve := s.curve + [point]));
  }

  /** The equity point of a bar. */
  method MarkPaper(l: Ledger, cfg: PaperConfig, bar: Bar, ghost start: real,
                   ghost fills: seq<Fill>) returns (p: PaperPoint)
    requires PaperBooks(l, cfg, start, fills)
    ensures PaperPointOk(p, start, fills) && p == PointAt(l, cfg, bar)
  {
    SingleEquity(l, cfg.key, bar.close);
    var equity := ComputeEquity(l, FlatMarks(l, bar.close));
    var held := if cfg.key in l.positions then l.positions[cfg.key].quantity else 0.0;
    p := PaperPoint(bar.closeTime, l.cash, held, bar.close, equity);
  }

  /** Close times of the bars the strategy has a position for. */
  function Scheduled(bars: seq<Bar>, series: map<int, int>): seq<int> {
    if bars == [] then []
    else
      var b := bars[|bars| - 1];
      Scheduled(bars[..|bars| - 1], series) + if b.closeTime in series then [b.closeTime] else []
  }

  /** The history behind a paper result: fills booked, and how many by each equity point. */
  datatype PaperLog = PaperLog(fills: seq<Fill>, bookedAt: seq<nat>)

  ghost predicate CurveSound(curve: seq<PaperPoint>, log: PaperLog, start: real) {
    && |log.bookedAt| == |curve|
    && forall i :: 0 <= i < |curve| ==>
         log.bookedAt[i] <= |log.fills| && PaperPointOk(curve[i], start, log.fills[..log.bookedAt[i]])
  }

  /** Every fill is at the close, and at the time, of a scheduled bar. */
  ghost predicate FillsAtCloses(fills: seq<Fill>, bars: seq<Bar>, series: map<int, int>) {
    forall f :: f in fills ==>
      exists b :: b in bars && b.closeTime in series && f.price == b.close && f.time == b.closeTime
  }

  ghost predicate CurveWealthy(curve: seq<PaperPoint>) {
    forall p :: p in curve ==> Wealthy(p.cash, p.quantity) && p.equity > 0.0
  }

  function Times(curve: seq<PaperPoint>): seq<int> {
    seq(|curve|, i requires 0 <= i < |curve| => curve[i].time)
  }

  /** What every run keeps from one bar to the next. */
  ghost predicate PaperSound(s: PaperState, cfg: PaperConfig, start: real, log: PaperLog, done: seq<Bar>,
                             bars: seq<Bar>, series: map<int, int>) {
    && PaperBooks(s.ledger, cfg, start, log.fills) && s.fills == |log.fills|
    && CurveSound(s.curve, log, start) && FillsAtCloses(log.fills, bars, series)
    && Times(s.curve) == Scheduled(done, series)
  }

  lemma SoundNext(s: PaperState, s': PaperState, cfg: PaperConfig, start: real, log: PaperLog, fills': seq<Fill>,
                  done: seq<Bar>, bar: Bar, bars: seq<Bar>, series: map<int, int>)
    requires PaperSound(s, cfg, start, log, done, bars, series) && Rebalanced(s, s', cfg, start, log.fills, fills', bar)
    requires bar in bars && bar.closeTime in series
    ensures PaperSound(s', cfg, start, PaperLog(fills', log.bookedAt + [|fills'|]), done + [bar], bars, series)
  {
    var log' := PaperLog(fills', log.bookedAt + [|fills'|]);
    assert (done + [bar])[..|done|] == done;
    assert fills'[..|fills'|] == fills';
    forall i | 0 <= i < |s.curve|
      ensures log'.bookedAt[i] <= |fills'| && PaperPointOk(s'.curve[i], start, fills'[..log'.bookedAt[i]])
    {
      assert fills'[..log.bookedAt[i]] == log.fills[..log.bookedAt[i]];
      assert PaperPointOk(s.curve[i], start, log.fills[..log.bookedAt[i]]);
    }
    NewFillsAtClose(log.fills, fills', bar, bars, series);
    assert Times(s'.curve) == Times(s.curve) + [bar.closeTime];
  }

  lemma NewFillsAtClose(fills: seq<Fill>, fills': seq<Fill>, bar: Bar, bars: seq<Bar>, series: map<int, int>)
    requires FillsAtCloses(fills, bars, series) && OneMore(fills, fills', bar) && bar in bars && bar.closeTime in series
    ensures FillsAtCloses(fills', bars, series)
  {
    assert fills' == fills || fills' == fills + [fills'[|fills|]];
  }

  lemma SkipBar(s: PaperState, cfg: PaperConfig, start: real, log: PaperLog, done: seq<Bar>, bar: Bar, bars: seq<Bar>,
                series: map<int, int>)
    requires PaperSound(s, cfg, start, log, done, bars, series) && bar.closeTime !in series
    ensures PaperSound(s, cfg, start, log, done + [bar], bars, series)
  {
    assert (done + [bar])[..|done|] == done;
  }

  lemma WealthyNext(curve: seq<PaperPoint>, p: PaperPoint)
    requires CurveWealthy(curve) && Wealthy(p.cash, p.quantity)
    requires p.mark > 0.0 && p.equity == p.cash + p.quantity * p.mark
    ensures CurveWealthy(curve + [p])
  {
    assert p.quantity * p.mark >= 0.0;
  }

  /** A whole run as a function of its inputs. */
  ghost function PaperAfter(cfg: PaperConfig, c: RiskConfig, armed: bool, cps: real, start: real, series: map<int, int>,
                            firstId: OrderId, bars: seq<Bar>): (Ledger, seq<PaperPoint>) {
    if bars == [] then (Ledger(start, map[]), [])
    else
      var n := |bars| - 1;
      Taken(PaperAfter(cfg, c, armed, cps, start, series, firstId, bars[..n]), cfg, c, armed, cps, series, bars[n],
            firstId + n)
  }

  /** What one bar makes of ledger and curve. */
  ghost function Taken(b: (Ledger, seq<PaperPoint>), cfg: PaperConfig, c: RiskConfig, armed: bool, cps: real,
                       series: map<int, int>, bar: Bar, id: OrderId): (Ledger, seq<PaperPoint>) {
    if bar.closeTime !in series || bar.close <= 0.0 then b
    else Rebooked(b, cfg, c, armed, cps, bar, WeightFor(series[bar.closeTime], cfg.leverage), id)
  }

  ghost predicate Priced(bars: seq<Bar>, series: map<int, int>) {
    forall b :: b in bars && b.closeTime in series ==> b.close > 0.0
  }

  /** The curve follows the series over these bars, and the books are where it ends. */
  ghost predicate OnSeries(cfg: PaperConfig, c: RiskConfig, armed: bool, cps: real, start: real,
                           series: map<int, int>, bars: seq<Bar>, b: (Ledger, seq<PaperPoint>)) {
    && FollowsSeries(cfg, c, armed, cps, start, series, bars, b.1) && OwnLedger(b.0, cfg)
    && b.0.cash == CashAfter(start, b.1) && Qty(Held(b.0, cfg.key)) == HeldAfter(b.1)
  }

  lemma SeriesNext(cfg: PaperConfig, c: RiskConfig, armed: bool, cps: real, start: real, series: map<int, int>,
                   bars: seq<Bar>, b: (Ledger, seq<PaperPoint>), b': (Ledger, seq<PaperPoint>), id: OrderId)
    requires bars != [] && OnSeries(cfg, c, armed, cps, start, series, bars[..|bars| - 1], b)
    requires var bar := bars[|bars| - 1];
             b' == Taken(b, cfg, c, armed, cps, series, bar, id) && (bar.closeTime in series ==> bar.close > 0.0)
    ensures OnSeries(cfg, c, armed, cps, start, series, bars, b')
  {
    var bar := bars[|bars| - 1];
    if bar.closeTime in series {
      RebookedFollows(b.0, b.1, cfg, c, armed, cps, bar, series[bar.closeTime], id);
    }
  }

  /** So a run follows the series, close by close. */
  lemma {:induction false} PaperAfterFollows(cfg: PaperConfig, c: RiskConfig, armed: bool, cps: real, start: real,
                                             series: map<int, int>, firstId: OrderId, bars: seq<Bar>)
    requires Priced(bars, series)
    ensures OnSeries(cfg, c, armed, cps, start, series, bars,
                     PaperAfter(cfg, c, armed, cps, start, series, firstId, bars))
  {
    var b' := PaperAfter(cfg, c, armed, cps, start, series, firstId, bars);
    if bars != [] {
      var n := |bars| - 1;
      assert bars[n] in bars && forall b :: b in bars[..n] ==> b in bars;
      PaperAfterFollows(cfg, c, armed, cps, start, series, firstId, bars[..n]);
      SeriesNext(cfg, c, armed, cps, start, series, bars,
                 PaperAfter(cfg, c, armed, cps, start, series, firstId, bars[..n]), b', firstId + n);
    }
  }

  /** With a point for every scheduled bar, every scheduled bar had a price. */
  lemma {:induction false} OnePointEach(cfg: PaperConfig, c: RiskConfig, armed: bool, cps: real, start: real,
                                        series: map<int, int>, firstId: OrderId, bars: seq<Bar>)
    ensures var curve := PaperAfter(cfg, c, armed, cps, start, series, firstId, bars).1;
            |curve| <= |Scheduled(bars, series)| && (|curve| == |Scheduled(bars, series)| ==> Priced(bars, series))
  {
    if bars != [] {
      var n := |bars| - 1;
      OnePointEach(cfg, c, armed, cps, start, series, firstId, bars[..n]);
      assert bars == bars[..n] + [bars[n]];
    }
  }

  lemma PaperAfterAt(cfg: PaperConfig, c: RiskConfig, armed: bool, cps: real, start: real, series: map<int, int>,
                     firstId: OrderId, bars: seq<Bar>, i: nat, b: (Ledger, seq<PaperPoint>),
                     b': (Ledger, seq<PaperPoint>))
    requires i < |bars| && b == PaperAfter(cfg, c, armed, cps, start, series, firstId, bars[..i])
    requires b' == Taken(b, cfg, c, armed, cps, series, bars[i], firstId + i)
    ensures b' == PaperAfter(cfg, c, armed, cps, start, series, firstId, bars[..i + 1])
  {
    assert bars[..i + 1][..i] == bars[..i];
  }

  ghost predicate WealthySoFar(s: PaperState, cfg: PaperConfig) {
    CurveWealthy(s.curve) && Wealthy(s.ledger.cash, Qty(Held(s.ledger, cfg.key)))
  }

  /** One bar: skipped when unscheduled, rebalanced otherwise. */
  method PaperBar(broker: PaperBroker, engine: RiskEngine, cfg: PaperConfig, s: PaperState, bar: Bar,
                  series: map<int, int>,
                  nextId: OrderId, ghost start: real, ghost log: PaperLog, ghost done: seq<Bar>, ghost bars: seq<Bar>)
    returns (r: Result<PaperState, PaperError>, ghost log': PaperLog)
    requires Rested(broker) && PaperSound(s, cfg, start, log, done, bars, series) && bar in bars
    modifies broker
    ensures Rested(broker)
    ensures r.Ok? ==> PaperSound(r.value, cfg, start, log', done + [bar], bars, series)
    ensures r.Ok? && engine.killSwitch.armed ==> log'.fills == log.fills
    ensures r.Ok? ==> BooksOf(r.value) == Taken(BooksOf(s), cfg, engine.config, engine.killSwitch.armed,
                                                broker.commissionPerShare, series, bar, nextId)
    ensures Thrifty(cfg, bars, series, broker.commissionPerShare) && WealthySoFar(s, cfg) ==>
              r.Ok? && WealthySoFar(r.value, cfg)
  {
    log' := log;
    if bar.closeTime !in series {
      SkipBar(s, cfg, start, log, done, bar, bars, series);
      return Ok(s), log';
    }
    var weight := WeightFor(series[bar.closeTime], cfg.leverage);
    if Thrifty(cfg, bars, series, broker.commissionPerShare) {
      ThriftyBar(cfg, bars, series, broker.commissionPerShare, bar);
    }
    ghost var fills;
    r, fills := PaperRebalance(broker, engine, cfg, s, bar, weight, nextId, start, log.fills);
    if r.Ok? {
      SoundNext(s, r.value, cfg, start, log, fills, done, bar, bars, series);
      log' := PaperLog(fills, log.bookedAt + [|fills|]);
      WealthyBar(s, r.value, cfg, start, log.fills, fills, bar);
    }
  }

  lemma WealthyBar(s: PaperState, s': PaperState, cfg: PaperConfig, start: real, fills: seq<Fill>, fills': seq<Fill>,
                   bar: Bar)
    requires Rebalanced(s, s', cfg, start, fills, fills', bar)
    ensures WealthySoFar(s, cfg) && Wealthy(s'.ledger.cash, Qty(Held(s'.ledger, cfg.key))) && bar.close > 0.0 ==>
              WealthySoFar(s', cfg)
  {
    var p := s'.curve[|s.curve|];
    assert s'.curve == s.curve + [p];
    if WealthySoFar(s, cfg) && Wealthy(p.cash, p.quantity) && bar.close > 0.0 {
      WealthyNext(s.curve, p);
    }
  }

  lemma PaperStart(cfg: PaperConfig, start: real, bars: seq<Bar>, series: map<int, int>)
    ensures PaperSound(PaperState(Ledger(start, map[]), 0, [], []), cfg, start, PaperLog([], []), [], bars, series)
  {
  }

  /** A connected broker whose connection notice was read. */
  method OpenBroker(cps: real) returns (broker: PaperBroker)
    ensures fresh(broker) && Rested(broker) && broker.commissionPerShare == cps
  {
    broker := new PaperBroker(cps);
    broker.Connect();
    Same(broker.taken, broker.queue, [Notice]);
    var _ := broker.Get();
  }

  /** A whole paper run: ledger and curve are the stated function of the inputs, and the curve follows the series:
      with the gate open each holding is the position's part of the slice of equity to within one share's price,
      and with it closed nothing moves. At every scheduled close, equity is the starting cash less what the fills
      so far cost plus the holding at its mark; every fill is at the close of its own bar. With positions in
      {0, 1}, leverage in [0, 1], a NAV slice of at most a tenth, positive closes in time order, and a per-share
      commission between zero and every close, the run never fails, cash stays positive and the holding a whole
      non-negative number of shares. An armed kill switch trades nothing. */
  method RunPaper(engine: RiskEngine, cfg: PaperConfig, bars: seq<Bar>, series: map<int, int>, start: real, cps: real,
                  nextId: OrderId)
    returns (r: Result<PaperState, PaperError>, final: real, ghost log: PaperLog)
    requires bars != []
    ensures r.Ok? ==> PaperSound(r.value, cfg, start, log, bars, bars, series)
    ensures r.Ok? ==> BooksOf(r.value) ==
                      PaperAfter(cfg, engine.config, engine.killSwitch.armed, cps, start, series, nextId, bars)
    ensures r.Ok? ==>
              FollowsSeries(cfg, engine.config, engine.killSwitch.armed, cps, start, series, bars, r.value.curve)
    ensures r.Ok? ==> final == if r.value.curve == [] then start else r.value.curve[|r.value.curve| - 1].equity
    ensures r.Ok? && engine.killSwitch.armed ==> log.fills == []
    ensures start > 0.0 && Thrifty(cfg, bars, series, cps) ==> r.Ok? && CurveWealthy(r.value.curve)
  {
    final := start;
    var broker := OpenBroker(cps);
    r, log := PaperBars(broker, engine, cfg, bars, series, start, nextId);
    if r.Err? {
      return r, start, log;
    }
    OnePointEach(cfg, engine.config, engine.killSwitch.armed, cps, start, series, nextId, bars);
    assert |Times(r.value.curve)| == |r.value.curve|;
    PaperAfterFollows(cfg, engine.config, engine.killSwitch.armed, cps, start, series, nextId, bars);
    broker.Disconnect();
    if r.value.curve != [] {
      final := r.value.curve[|r.value.curve| - 1].equity;
    }
  }

  /** The next bar, at its place in the run. */
  method PaperClose(broker: PaperBroker, engine: RiskEngine, cfg: PaperConfig, s: PaperState, bars: seq<Bar>, i: nat,
                    series: map<int, int>, nextId: OrderId, ghost start: real, ghost log: PaperLog)
    returns (r: Result<PaperState, PaperError>, ghost log': PaperLog)
    requires Rested(broker) && i < |bars| && PaperSound(s, cfg, start, log, bars[..i], bars, series)
    requires BooksOf(s) == PaperAfter(cfg, engine.config, engine.killSwitch.armed, broker.commissionPerShare, start,
                                      series, nextId, bars[..i])
    modifies broker
    ensures Rested(broker)
    ensures r.Ok? ==> PaperSound(r.value, cfg, start, log', bars[..i + 1], bars, series)
    ensures r.Ok? ==> BooksOf(r.value) ==
                      PaperAfter(cfg, engine.config, engine.killSwitch.armed, broker.commissionPerShare, start, series,
                                 nextId, bars[..i + 1])
    ensures r.Ok? && engine.killSwitch.armed ==> log'.fills == log.fills
    ensures Thrifty(cfg, bars, series, broker.commissionPerShare) && WealthySoFar(s, cfg) ==>
              r.Ok? && WealthySoFar(r.value, cfg)
  {
    assert bars[..i + 1] == bars[..i] + [bars[i]];
    r, log' := PaperBar(broker, engine, cfg, s, bars[i], series, nextId + i, start, log, bars[..i], bars);
    if r.Ok? {
      PaperAfterAt(cfg, engine.config, engine.killSwitch.armed, broker.commissionPerShare, start, series, nextId, bars,
                   i, BooksOf(s), BooksOf(r.value));
    }
  }

  /** Every bar in turn, on a clock that only moves forward. */
  method PaperBars(broker: PaperBroker, engine: RiskEngine, cfg: PaperConfig, bars: seq<Bar>, series: map<int, int>,
                   start: real, nextId: OrderId)
    returns (r: Result<PaperState, PaperError>, ghost log: PaperLog)
    requires Rested(broker) && bars != []
    modifies broker
    ensures Rested(broker)
    ensures r.Ok? ==> PaperSound(r.value, cfg, start, log, bars, bars, series)
    ensures r.Ok? ==> BooksOf(r.value) ==
                      PaperAfter(cfg, engine.config, engine.killSwitch.armed, broker.commissionPerShare,
                                 start, series, nextId, bars)
    ensures r.Ok? && engine.killSwitch.armed ==> log.fills == []
    ensures start > 0.0 && Thrifty(cfg, bars, series, broker.commissionPerShare) ==>
              r.Ok? && CurveWealthy(r.value.curve)
  {
    log := PaperLog([], []);
    var clock := bars[0].closeTime;
    var s := PaperState(Ledger(start, map[]), 0, [], []);
    ghost var c, armed, cps := engine.config, engine.killSwitch.armed, broker.commissionPerShare;
    ghost var thrifty := start > 0.0 && Thrifty(cfg, bars, series, cps);
    PaperStart(cfg, start, bars, series);
    for i := 0 to |bars|
      invariant Rested(broker)
      invariant clock == bars[if i == 0 then 0 else i - 1].closeTime
      invariant PaperSound(s, cfg, start, log, bars[..i], bars, series)
      invariant BooksOf(s) == PaperAfter(cfg, c, armed, cps, start, series, nextId, bars[..i])
      invariant armed ==> log.fills == []
      invariant thrifty ==> WealthySoFar(s, cfg)
    {
      var t := bars[i].closeTime;
      if t < clock {
        InOrder(bars, i);
        return Err(ClockBackwards), log;
      }
      clock := t;
      var next;
      next, log := PaperClose(broker, engine, cfg, s, bars, i, series, nextId, start, log);
      if next.Err? {
        return next, log;
      }
      s := next.value;
    }
    assert bars[..|bars|] == bars;
    r := Ok(s);
  }

  lemma InOrder(bars: seq<Bar>, i: nat)
    requires i < |bars|
    ensures SortedBars(bars) ==> bars[if i == 0 then 0 else i - 1].closeTime <= bars[i].closeTime
  {
  }
}
