/** Position arithmetic and its profit-and-loss identity. */
module Positions {
  import opened Domain

  datatype Position = Position(
    instrument: Instrument,
    strategyId: string,
    quantity: real,
    avgCost: real,
    openedAt: Option<int>,
    updatedAt: int)

  /** The checks a Position runs on construction. */
  predicate ValidPosition(p: Position) {
    && p.strategyId != ""
    && (p.quantity == 0.0 <==> p.openedAt.None?)
    && (p.quantity != 0.0 ==> p.avgCost > 0.0)
  }

  datatype ApplyError = StrategyMismatch | InstrumentMismatch

  function Abs(x: real): real {
    if x < 0.0 then -x else x
  }

  /** flat → open, same-side add, full close, flip, partial close. */
  function ApplyFill(p: Option<Position>, f: Fill, strategyId: string, now: int): Result<Position, ApplyError> {
    var signed := Signed(f);
    if p.None? || p.value.quantity == 0.0 then
      Ok(Position(f.instrument, strategyId, signed, f.price, Some(f.time), now))
    else
      var q := p.value;
      if q.strategyId != strategyId then Err(StrategyMismatch)
      else if q.instrument != f.instrument then Err(InstrumentMismatch)
      else
        var qty := q.quantity + signed;
        if (q.quantity > 0.0 && signed > 0.0) || (q.quantity < 0.0 && signed < 0.0) then
          Ok(q.(quantity := qty,
                avgCost := Abs((q.quantity * q.avgCost + signed * f.price) / qty),
                updatedAt := now))
        else if qty == 0.0 then
          Ok(q.(quantity := 0.0, avgCost := 0.0, openedAt := None, updatedAt := now))
        else if (q.quantity > 0.0) != (qty > 0.0) then
          Ok(q.(quantity := qty, avgCost := f.price, openedAt := Some(f.time), updatedAt := now))
        else
          Ok(q.(quantity := qty, updatedAt := now))
  }

  /** When a fill is refused, and what the other fields of the position become: a fill of another strategy or
      instrument is refused while something is held; the opening time is that of the fill that opened or flipped
      the position, and none when flat. */
  lemma ApplyFillFields(p: Option<Position>, f: Fill, strategyId: string, now: int)
    requires ValidFill(f)
    ensures var r, held := ApplyFill(p, f, strategyId, now), p.Some? && p.value.quantity != 0.0;
            && (r == Err(StrategyMismatch) <==> held && p.value.strategyId != strategyId)
            && (r == Err(InstrumentMismatch) <==>
                held && p.value.strategyId == strategyId && p.value.instrument != f.instrument)
            && (r.Ok? ==>
                  var q := r.value;
                  && q.instrument == f.instrument && q.strategyId == strategyId && q.updatedAt == now
                  && q.openedAt == if q.quantity == 0.0 then None
                                   else if held && (p.value.quantity > 0.0) == (q.quantity > 0.0) then p.value.openedAt
                                   else Some(f.time))
  {
  }

  // ---- Accounting view -----------------------------------------------------

  function Qty(p: Option<Position>): real {
    if p.None? then 0.0 else p.value.quantity
  }

  /** Cost basis, signed like the quantity. */
  function Basis(p: Option<Position>): real {
    if p.None? then 0.0 else p.value.quantity * p.value.avgCost
  }

  function Min(a: real, b: real): real {
    if a <= b then a else b
  }

  function Max(a: real, b: real): real {
    if a <= b then b else a
  }

  predicate Opposite(held: real, signed: real) {
    (held > 0.0 && signed < 0.0) || (held < 0.0 && signed > 0.0)
  }

  /** Profit realised by a fill: the closed quantity at fill price against average cost, long or short. */
  function RealisedBy(p: Option<Position>, f: Fill): real {
    if p.None? || !Opposite(p.value.quantity, Signed(f)) then 0.0
    else
      var closed := Min(Abs(p.value.quantity), Abs(Signed(f)));
      if p.value.quantity > 0.0 then closed * (f.price - p.value.avgCost) else closed * (p.value.avgCost - f.price)
  }

  function Notional(f: Fill): real {
    Signed(f) * f.price
  }

  lemma SignOfFactor(u: real, z: real)
    requires u > 0.0 && u * z >= 0.0
    ensures z >= 0.0
  {
  }

  /** An average with positive weights lies between its terms. */
  lemma Average(x: real, c: real, y: real, d: real, a: real)
    requires x > 0.0 && y > 0.0 && (x + y) * a == x * c + y * d
    ensures Min(c, d) <= a <= Max(c, d)
  {
    var lo, hi := Min(c, d), Max(c, d);
    assert (x + y) * (a - lo) == x * (c - lo) + y * (d - lo);
    assert (x + y) * (hi - a) == x * (hi - c) + y * (hi - d);
    assert x * (c - lo) >= 0.0 && y * (d - lo) >= 0.0 && x * (hi - c) >= 0.0 && y * (hi - d) >= 0.0;
    SignOfFactor(x + y, a - lo);
    SignOfFactor(x + y, hi - a);
  }

  lemma AddAverage(q: real, c: real, s: real, d: real)
    requires (q > 0.0 && s > 0.0) || (q < 0.0 && s < 0.0)
    requires c > 0.0 && d > 0.0
    ensures var a := Abs((q * c + s * d) / (q + s));
            && (q + s) * a == q * c + s * d
            && Min(c, d) <= a <= Max(c, d)
  {
    var a := (q * c + s * d) / (q + s);
    assert (q + s) * a == q * c + s * d;
    if q > 0.0 {
      Average(q, c, s, d, a);
    } else {
      assert (-q + -s) * a == -((q + s) * a);
      assert -q * c + -s * d == -(q * c + s * d);
      Average(-q, c, -s, d, a);
    }
  }

  /** Selling out of, or through, a long position. */
  lemma LongBooks(q: real, c: real, s: real, d: real)
    requires q > 0.0 && s < 0.0
    ensures q + s > 0.0 ==> (q + s) * c - -s * (d - c) == q * c + s * d
    ensures q + s <= 0.0 ==> (q + s) * d - q * (d - c) == q * c + s * d
  {
  }

  /** Buying back, or through, a short position. */
  lemma ShortBooks(q: real, c: real, s: real, d: real)
    requires q < 0.0 && s > 0.0
    ensures q + s < 0.0 ==> (q + s) * c - s * (c - d) == q * c + s * d
    ensures q + s >= 0.0 ==> (q + s) * d - -q * (c - d) == q * c + s * d
  {
  }

  ghost predicate Books(p: Option<Position>, f: Fill, strategyId: string, p': Position) {
    && ValidPosition(p') && p'.strategyId == strategyId && p'.instrument == f.instrument
    && p'.quantity == Qty(p) + Signed(f)
    && (p'.quantity == 0.0 ==> p'.avgCost == 0.0)
    && Basis(Some(p')) - RealisedBy(p, f) == Basis(p) + Notional(f)
  }

  /** One fill: quantities add, and cost basis minus realised profit moves by signed quantity × price. */
  lemma ApplyFillBooks(p: Option<Position>, f: Fill, strategyId: string, now: int)
    requires ValidFill(f) && (p.Some? ==> ValidPosition(p.value))
    requires ApplyFill(p, f, strategyId, now).Ok? && strategyId != ""
    ensures Books(p, f, strategyId, ApplyFill(p, f, strategyId, now).value)
  {
    if p.None? || p.value.quantity == 0.0 {
      OpenBooks(p, f, strategyId, now);
    } else if (p.value.quantity > 0.0) == (Signed(f) > 0.0) {
      AddBooks(p.value, f, strategyId, now);
    } else {
      CloseBooks(p.value, f, strategyId, now);
    }
  }

  lemma OpenBooks(p: Option<Position>, f: Fill, strategyId: string, now: int)
    requires ValidFill(f) && strategyId != "" && (p.None? || p.value.quantity == 0.0)
    ensures Books(p, f, strategyId, ApplyFill(p, f, strategyId, now).value)
  {
    assert Basis(p) == 0.0;
  }

  lemma AddBooks(p: Position, f: Fill, strategyId: string, now: int)
    requires ValidFill(f) && ValidPosition(p) && p.quantity != 0.0 && (p.quantity > 0.0) == (Signed(f) > 0.0)
    requires ApplyFill(Some(p), f, strategyId, now).Ok?
    ensures var p' := ApplyFill(Some(p), f, strategyId, now).value;
            && Books(Some(p), f, strategyId, p')
            && Min(p.avgCost, f.price) <= p'.avgCost <= Max(p.avgCost, f.price)
  {
    AddAverage(p.quantity, p.avgCost, Signed(f), f.price);
    var p' := ApplyFill(Some(p), f, strategyId, now).value;
    assert p'.avgCost == Abs((p.quantity * p.avgCost + Signed(f) * f.price) / (p.quantity + Signed(f)));
    assert p'.quantity == p.quantity + Signed(f);
  }

  lemma CloseBooks(p: Position, f: Fill, strategyId: string, now: int)
    requires ValidFill(f) && ValidPosition(p) && p.quantity != 0.0 && (p.quantity > 0.0) != (Signed(f) > 0.0)
    requires ApplyFill(Some(p), f, strategyId, now).Ok?
    ensures Books(Some(p), f, strategyId, ApplyFill(Some(p), f, strategyId, now).value)
  {
    if p.quantity > 0.0 {
      LongBooks(p.quantity, p.avgCost, Signed(f), f.price);
    } else {
      ShortBooks(p.quantity, p.avgCost, Signed(f), f.price);
    }
  }

  // ---- Any sequence of fills -----------------------------------------------

  /** Fills of one instrument booked from flat. */
  function Book(fills: seq<Fill>, strategyId: string, now: int): Option<Position> {
    if fills == [] then None
    else
      match ApplyFill(Book(fills[..|fills| - 1], strategyId, now), fills[|fills| - 1], strategyId, now)
      case Ok(p) => Some(p)
      case Err(_) => None
  }

  function SignedSum(fills: seq<Fill>): real {
    if fills == [] then 0.0 else SignedSum(fills[..|fills| - 1]) + Signed(fills[|fills| - 1])
  }

  function SignedNotional(fills: seq<Fill>): real {
    if fills == [] then 0.0
    else SignedNotional(fills[..|fills| - 1]) + Notional(fills[|fills| - 1])
  }

  function Realised(fills: seq<Fill>, strategyId: string, now: int): real {
    if fills == [] then 0.0
    else
      Realised(fills[..|fills| - 1], strategyId, now) +
      RealisedBy(Book(fills[..|fills| - 1], strategyId, now), fills[|fills| - 1])
  }

  ghost predicate SameInstrument(fills: seq<Fill>, inst: Instrument) {
    forall f :: f in fills ==> ValidFill(f) && f.instrument == inst
  }

  /** A booked position and the running totals of the fills behind it. */
  ghost predicate Balanced(p: Option<Position>, any: bool, inst: Instrument, strategyId: string, qty: real,
                           realised: real, notional: real) {
    && (any ==> p.Some?)
    && (p.Some? ==>
          && ValidPosition(p.value) && p.value.instrument == inst && p.value.strategyId == strategyId
          && (p.value.quantity == 0.0 ==> p.value.avgCost == 0.0 && p.value.openedAt == None))
    && Qty(p) == qty
    && Basis(p) - realised == notional
  }

  lemma BalanceStep(p: Option<Position>, any: bool, inst: Instrument, strategyId: string,
                   qty: real, realised: real, notional: real, f: Fill, now: int)
    requires Balanced(p, any, inst, strategyId, qty, realised, notional) && strategyId != ""
    requires ValidFill(f) && f.instrument == inst
    ensures ApplyFill(p, f, strategyId, now).Ok?
    ensures Balanced(Some(ApplyFill(p, f, strategyId, now).value), true, inst, strategyId,
                   qty + Signed(f), realised + RealisedBy(p, f), notional + Notional(f))
  {
    ApplyFillBooks(p, f, strategyId, now);
  }

  /** For any fills, through adds, partial closes, closes and flips: the quantity is the signed sum, and
      cost basis minus all realised profit is the signed notional traded. */
  lemma {:induction false} ProfitIdentity(fills: seq<Fill>, inst: Instrument, strategyId: string, now: int)
    requires SameInstrument(fills, inst) && strategyId != ""
    ensures Balanced(Book(fills, strategyId, now), fills != [], inst, strategyId,
                   SignedSum(fills), Realised(fills, strategyId, now), SignedNotional(fills))
  {
    if fills != [] {
      var init, f := fills[..|fills| - 1], fills[|fills| - 1];
      ProfitIdentity(init, inst, strategyId, now);
      BalanceStep(Book(init, strategyId, now), init != [], inst, strategyId,
                 SignedSum(init), Realised(init, strategyId, now), SignedNotional(init), f, now);
    }
  }

  // ---- Average cost --------------------------------------------------------

  /** Length of the tail of fills since the position was last opened or flipped. */
  function LegLength(fills: seq<Fill>): nat {
    if fills == [] then 0
    else
      var init := fills[..|fills| - 1];
      var before, after := SignedSum(init), SignedSum(fills);
      if after == 0.0 then 0
      else if before == 0.0 || (before > 0.0) != (after > 0.0) then 1
      else LegLength(init) + 1
  }

  lemma {:induction false} LegBounded(fills: seq<Fill>)
    ensures LegLength(fills) <= |fills|
  {
    if fills != [] {
      LegBounded(fills[..|fills| - 1]);
    }
  }

  /** The average cost lies within any band that holds every fill price since the last open or flip. */
  lemma {:induction false} AverageWithinLeg(fills: seq<Fill>, inst: Instrument, strategyId: string, now: int,
                                            lo: real, hi: real)
    requires SameInstrument(fills, inst) && strategyId != "" && SignedSum(fills) != 0.0
    requires LegLength(fills) <= |fills| &&
             forall i :: |fills| - LegLength(fills) <= i < |fills| ==> lo <= fills[i].price <= hi
    ensures Book(fills, strategyId, now).Some? && lo <= Book(fills, strategyId, now).value.avgCost <= hi
  {
    var init, f := fills[..|fills| - 1], fills[|fills| - 1];
    ProfitIdentity(fills, inst, strategyId, now);
    ProfitIdentity(init, inst, strategyId, now);
    LegBounded(init);
    if SignedSum(init) != 0.0 && (SignedSum(init) > 0.0) == (SignedSum(fills) > 0.0) {
      AverageWithinLeg(init, inst, strategyId, now, lo, hi);
      var p := Book(init, strategyId, now).value;
      if (p.quantity > 0.0) == (Signed(f) > 0.0) {
        AddBooks(p, f, strategyId, now);
      }
    }
  }
}
