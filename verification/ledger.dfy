/** The cash and position ledger the pipelines keep, marked to market. */
module Ledgers {
  import opened Domain
  import opened Positions
  import opened Sums

  datatype Ledger = Ledger(cash: real, positions: map<string, Position>)

  function Held(l: Ledger, sym: string): Option<Position> {
    if sym in l.positions then Some(l.positions[sym]) else None
  }

  function CashFlow(f: Fill): real {
    Notional(f) + f.commission
  }

  /** Book one fill under its instrument's symbol. */
  function Settle(l: Ledger, f: Fill, strategyId: string, now: int): Result<Ledger, ApplyError> {
    match ApplyFill(Held(l, f.instrument.symbol), f, strategyId, now)
    case Err(e) => Err(e)
    case Ok(p) => Ok(Ledger(l.cash - CashFlow(f), l.positions[f.instrument.symbol := p]))
  }

  function MarkOf(marks: map<string, real>, sym: string): real {
    if sym in marks then marks[sym] else 0.0
  }

  /** A holding at its mark; without a mark it is worth nothing. */
  function Worth(p: Position, sym: string, marks: map<string, real>): real {
    p.quantity * MarkOf(marks, sym)
  }

  function Values(positions: map<string, Position>, marks: map<string, real>): map<string, real> {
    map sym | sym in positions :: Worth(positions[sym], sym, marks)
  }

  ghost function Equity(l: Ledger, marks: map<string, real>): real {
    l.cash + MapSum(Values(l.positions, marks))
  }

  lemma ValuesRemove(positions: map<string, Position>, sym: string, marks: map<string, real>)
    requires sym in positions
    ensures MapSum(Values(positions, marks)) ==
            Worth(positions[sym], sym, marks) + MapSum(Values(positions - {sym}, marks))
    ensures (positions - {sym}).Keys == positions.Keys - {sym}
  {
    MapSumRemove(Values(positions, marks), sym);
    assert Values(positions, marks) - {sym} == Values(positions - {sym}, marks);
  }

  lemma TakeOne(todo: map<string, Position>, sym: string, marks: map<string, real>, notional: real, total: real)
    requires sym in todo && notional + MapSum(Values(todo, marks)) == total
    ensures (if sym in marks then notional + Worth(todo[sym], sym, marks) else notional)
            + MapSum(Values(todo - {sym}, marks)) == total
    ensures |(todo - {sym}).Keys| < |todo.Keys|
  {
    ValuesRemove(todo, sym, marks);
    if sym !in marks {
      Unmarked(todo[sym], sym, marks);
    }
  }

  lemma Unmarked(p: Position, sym: string, marks: map<string, real>)
    requires sym !in marks
    ensures Worth(p, sym, marks) == 0.0
  {
  }

  /** The equity loop: visits the positions in some order. */
  method ComputeEquity(l: Ledger, marks: map<string, real>) returns (equity: real)
    ensures equity == Equity(l, marks)
  {
    var notional := 0.0;
    var todo := l.positions;
    while todo != map[]
      invariant notional + MapSum(Values(todo, marks)) == MapSum(Values(l.positions, marks))
      decreases |todo.Keys|
    {
      var sym :| sym in todo.Keys;
      TakeOne(todo, sym, marks, notional, MapSum(Values(l.positions, marks)));
      if sym in marks {
        notional := notional + Worth(todo[sym], sym, marks);
      }
      todo := todo - {sym};
    }
    equity := l.cash + notional;
  }

  // ---- Conservation --------------------------------------------------------

  /** Gain of a fill at the marks: signed quantity × (mark − fill price), less commission. */
  function Gain(f: Fill, marks: map<string, real>): real {
    Signed(f) * (MarkOf(marks, f.instrument.symbol) - f.price) - f.commission
  }

  lemma ApplyFillQuantity(p: Option<Position>, f: Fill, strategyId: string, now: int)
    requires ApplyFill(p, f, strategyId, now).Ok?
    ensures ApplyFill(p, f, strategyId, now).value.quantity == Qty(p) + Signed(f)
  {
  }

  /** Settling a fill moves equity, at any marks, by exactly its gain. */
  lemma SettleEquity(l: Ledger, f: Fill, strategyId: string, now: int, marks: map<string, real>)
    requires Settle(l, f, strategyId, now).Ok?
    ensures Equity(Settle(l, f, strategyId, now).value, marks) == Equity(l, marks) + Gain(f, marks)
  {
    var l', sym := Settle(l, f, strategyId, now).value, f.instrument.symbol;
    ApplyFillQuantity(Held(l, sym), f, strategyId, now);
    var p := l'.positions[sym];
    SettleValues(l.positions, sym, p, marks);
    WorthMoves(Held(l, sym), p, f, marks);
  }

  lemma SettleValues(positions: map<string, Position>, sym: string, p: Position, marks: map<string, real>)
    ensures MapSum(Values(positions[sym := p], marks)) ==
            MapSum(Values(positions, marks)) + Worth(p, sym, marks)
            - (if sym in positions then Worth(positions[sym], sym, marks) else 0.0)
  {
    assert Values(positions[sym := p], marks) == Values(positions, marks)[sym := Worth(p, sym, marks)];
    MapSumUpdate(Values(positions, marks), sym, Worth(p, sym, marks));
  }

  lemma WorthMoves(before: Option<Position>, p: Position, f: Fill, marks: map<string, real>)
    requires p.quantity == Qty(before) + Signed(f)
    ensures Worth(p, f.instrument.symbol, marks) - CashFlow(f) ==
            (if before.Some? then Worth(before.value, f.instrument.symbol, marks) else 0.0) + Gain(f, marks)
  {
    GainSplits(Qty(before), Signed(f), MarkOf(marks, f.instrument.symbol), f.price);
  }

  lemma GainSplits(q: real, s: real, mark: real, price: real)
    ensures (q + s) * mark - s * price == q * mark + s * (mark - price)
  {
  }

  function SettleAll(l: Ledger, fills: seq<Fill>, strategyId: string, now: int): Result<Ledger, ApplyError> {
    if fills == [] then Ok(l)
    else
      match SettleAll(l, fills[..|fills| - 1], strategyId, now)
      case Err(e) => Err(e)
      case Ok(l') => Settle(l', fills[|fills| - 1], strategyId, now)
  }

  function TotalGain(fills: seq<Fill>, marks: map<string, real>): real {
    if fills == [] then 0.0 else TotalGain(fills[..|fills| - 1], marks) + Gain(fills[|fills| - 1], marks)
  }

  /** Signed quantity traded in one symbol. */
  function Traded(fills: seq<Fill>, sym: string): real {
    if fills == [] then 0.0
    else
      var f := fills[|fills| - 1];
      Traded(fills[..|fills| - 1], sym) + if f.instrument.symbol == sym then Signed(f) else 0.0
  }

  /** The books after `fills`: equity at any marks is starting cash plus all gains, every holding is
      the signed sum of its fills. */
  ghost predicate Conserved(l: Ledger, start: real, fills: seq<Fill>) {
    && (forall marks :: Equity(l, marks) == start + TotalGain(fills, marks))
    && (forall sym :: Qty(Held(l, sym)) == Traded(fills, sym))
  }

  lemma ConservedStart(start: real)
    ensures Conserved(Ledger(start, map[]), start, [])
  {
    forall marks
      ensures Equity(Ledger(start, map[]), marks) == start
    {
      assert Values(map[], marks) == map[];
    }
  }

  lemma ConservedSettle(l: Ledger, start: real, fills: seq<Fill>, f: Fill, strategyId: string, now: int)
    requires Conserved(l, start, fills) && Settle(l, f, strategyId, now).Ok?
    ensures Conserved(Settle(l, f, strategyId, now).value, start, fills + [f])
  {
    var l', all := Settle(l, f, strategyId, now).value, fills + [f];
    assert all[..|all| - 1] == fills;
    forall marks
      ensures Equity(l', marks) == start + TotalGain(all, marks)
    {
      SettleEquity(l, f, strategyId, now, marks);
    }
    ApplyFillQuantity(Held(l, f.instrument.symbol), f, strategyId, now);
  }

  /** Nothing is created or lost by any sequence of settled fills. */
  lemma {:induction false} SettleAllConserves(start: real, fills: seq<Fill>, strategyId: string, now: int)
    requires SettleAll(Ledger(start, map[]), fills, strategyId, now).Ok?
    ensures Conserved(SettleAll(Ledger(start, map[]), fills, strategyId, now).value, start, fills)
  {
    if fills == [] {
      ConservedStart(start);
    } else {
      var init, f := fills[..|fills| - 1], fills[|fills| - 1];
      SettleAllConserves(start, init, strategyId, now);
      ConservedSettle(SettleAll(Ledger(start, map[]), init, strategyId, now).value, start, init, f, strategyId, now);
      assert init + [f] == fills;
    }
  }
}
