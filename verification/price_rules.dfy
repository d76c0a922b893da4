/** The cached price tables fed to snapping: market rules, with the minimum tick to fall back on. */
module PriceRules {
  import opened Domain
  import opened PriceGrid
  import opened IBBrokerModel

  /** A parsed decimal and the power of ten of its last written digit. */
  datatype Written = Written(value: real, unit: real)

  /** A row of a market rule as parsed; `None` where no decimal could be read. */
  datatype RawIncrement = RawIncrement(lowEdge: Option<Written>, increment: Option<Written>)

  /** What contract details say: positional rule ids and exchanges, already split and stripped. */
  datatype Details = Details(
    primaryExchange: string, exchange: string, ruleIds: seq<string>, validExchanges: seq<string>,
    minTick: Option<Written>)

  /** How rule ids read as integers, and what each rule request returns, `None` being a wire error. */
  datatype Wire = Wire(readId: string -> Option<int>, rule: int -> Option<seq<RawIncrement>>)

  datatype RuleError = NoPriceRule

  // ---- Which rule governs ----------------------------------------------------

  function FirstFilled(ids: seq<string>): Option<string> {
    if ids == [] then None else if ids[0] != "" then Some(ids[0]) else FirstFilled(ids[1..])
  }

  function AtExchange(exchanges: seq<string>, ids: seq<string>, target: string): Option<string>
    requires |exchanges| == |ids|
  {
    if ids == [] then None
    else if exchanges[0] == target && ids[0] != "" then Some(ids[0])
    else AtExchange(exchanges[1..], ids[1..], target)
  }

  function Target(d: Details): string {
    if d.primaryExchange != "" then d.primaryExchange else d.exchange
  }

  /** The first id listed at the governing exchange, else the first id; one that is no integer is no rule. */
  function GoverningRuleId(d: Details, wire: Wire): Option<int> {
    var here := if Target(d) != "" && |d.ruleIds| == |d.validExchanges|
                then AtExchange(d.validExchanges, d.ruleIds, Target(d)) else None;
    var chosen := if here.Some? then here else FirstFilled(d.ruleIds);
    if chosen.Some? then wire.readId(chosen.value) else None
  }

  /** The id at position `i` governs: it stands beside the target exchange, the first filled one to do so; or, when
      none does or the two lists do not match up, it is the first filled one. */
  ghost predicate Governs(d: Details, i: nat) {
    && i < |d.ruleIds| && d.ruleIds[i] != ""
    && if exists j :: BesideTarget(d, j)
       then BesideTarget(d, i) && forall j :: 0 <= j < i ==> !BesideTarget(d, j)
       else forall j :: 0 <= j < i ==> d.ruleIds[j] == ""
  }

  ghost predicate BesideTarget(d: Details, j: int) {
    && |d.ruleIds| == |d.validExchanges| && 0 <= j < |d.ruleIds| && d.ruleIds[j] != ""
    && d.validExchanges[j] != ""
    && d.validExchanges[j] == if d.primaryExchange != "" then d.primaryExchange else d.exchange
  }

  /** Which rule is asked for, by position. */
  lemma GoverningByPosition(d: Details, wire: Wire)
    ensures forall i: nat :: Governs(d, i) ==> GoverningRuleId(d, wire) == wire.readId(d.ruleIds[i])
    ensures (forall r :: r in d.ruleIds ==> r == "") ==> GoverningRuleId(d, wire) == None
    ensures (exists r :: r in d.ruleIds && r != "") ==> exists i: nat :: Governs(d, i)
  {
    FirstFilledAt(d.ruleIds);
    if Target(d) != "" && |d.ruleIds| == |d.validExchanges| {
      AtExchangeAt(d.validExchanges, d.ruleIds, Target(d));
      assert forall j: int :: BesideTarget(d, j) <==> Beside(d.validExchanges, d.ruleIds, Target(d), j);
      if i: nat :| FirstBeside(d.validExchanges, d.ruleIds, Target(d), i)
                   && AtExchange(d.validExchanges, d.ruleIds, Target(d)) == Some(d.ruleIds[i]) {
        assert BesideTarget(d, i) && Governs(d, i) && d.ruleIds[i] in d.ruleIds;
        OneGoverns(d, i);
        return;
      }
    }
    assert forall j: int :: !BesideTarget(d, j);
    if i: nat :| FirstFilledIs(d.ruleIds, i) && FirstFilled(d.ruleIds) == Some(d.ruleIds[i]) {
      assert Governs(d, i) && d.ruleIds[i] in d.ruleIds;
      OneGoverns(d, i);
    } else {
      assert forall k: nat :: k < |d.ruleIds| ==> d.ruleIds[k] in d.ruleIds;
    }
  }

  lemma OneGoverns(d: Details, i: nat)
    requires Governs(d, i)
    ensures forall k: nat :: Governs(d, k) ==> k == i
  {
    forall k: nat | Governs(d, k)
      ensures k == i
    {
      assert i < k ==> d.ruleIds[i] != "";
    }
  }

  ghost predicate FirstFilledIs(ids: seq<string>, i: nat) {
    i < |ids| && ids[i] != "" && forall j :: 0 <= j < i ==> ids[j] == ""
  }

  lemma {:induction false} FirstFilledAt(ids: seq<string>)
    ensures FirstFilled(ids) == None <==> forall r :: r in ids ==> r == ""
    ensures FirstFilled(ids).Some? ==> exists i: nat :: FirstFilledIs(ids, i) && FirstFilled(ids).value == ids[i]
  {
    if ids != [] {
      assert ids[0] in ids;
      if ids[0] != "" {
        assert FirstFilledIs(ids, 0);
      } else {
        var rest := ids[1..];
        FirstFilledAt(rest);
        assert ids == [ids[0]] + rest && forall r :: r in ids <==> r == ids[0] || r in rest;
        if FirstFilled(ids).Some? {
          var i: nat :| FirstFilledIs(rest, i) && FirstFilled(ids).value == rest[i];
          assert FirstFilledIs(ids, i + 1);
        }
      }
    }
  }

  ghost predicate Beside(exchanges: seq<string>, ids: seq<string>, target: string, i: int)
    requires |exchanges| == |ids|
  {
    0 <= i < |ids| && exchanges[i] == target && ids[i] != ""
  }

  ghost predicate FirstBeside(exchanges: seq<string>, ids: seq<string>, target: string, i: nat)
    requires |exchanges| == |ids|
  {
    Beside(exchanges, ids, target, i) && forall j :: 0 <= j < i ==> !Beside(exchanges, ids, target, j)
  }

  lemma {:induction false} AtExchangeAt(exchanges: seq<string>, ids: seq<string>, target: string)
    requires |exchanges| == |ids|
    ensures AtExchange(exchanges, ids, target) == None ==> forall i :: !Beside(exchanges, ids, target, i)
    ensures AtExchange(exchanges, ids, target).Some? ==>
              exists i: nat :: FirstBeside(exchanges, ids, target, i) &&
                               AtExchange(exchanges, ids, target).value == ids[i]
  {
    if ids != [] {
      var es, rest := exchanges[1..], ids[1..];
      if Beside(exchanges, ids, target, 0) {
        assert FirstBeside(exchanges, ids, target, 0);
      } else {
        AtExchangeAt(es, rest, target);
        forall i: int | i > 0
          ensures Beside(exchanges, ids, target, i) <==> Beside(es, rest, target, i - 1)
        {
        }
        if AtExchange(es, rest, target).Some? {
          var i: nat :| FirstBeside(es, rest, target, i) && AtExchange(es, rest, target).value == rest[i];
          assert Beside(es, rest, target, (i + 1) - 1);
          assert FirstBeside(exchanges, ids, target, i + 1);
        } else {
          forall i: int
            ensures !Beside(exchanges, ids, target, i)
          {
            assert !Beside(es, rest, target, i - 1);
          }
        }
      }
    }
  }

  // ---- A market rule as a table ----------------------------------------------

  predicate Kept(r: RawIncrement) {
    r.lowEdge.Some? && r.increment.Some? && r.increment.value.value > 0.0
  }

  function BandOf(r: RawIncrement): Band
    requires Kept(r)
  {
    Band(r.lowEdge.value.value, r.increment.value.value, r.increment.value.unit)
  }

  function Bands(rows: seq<RawIncrement>): seq<Band> {
    if rows == [] then []
    else
      var r := rows[|rows| - 1];
      Bands(rows[..|rows| - 1]) + if Kept(r) then [BandOf(r)] else []
  }

  function Insert(sorted: seq<Band>, b: Band): seq<Band> {
    if sorted == [] || sorted[|sorted| - 1].lowEdge <= b.lowEdge then sorted + [b]
    else Insert(sorted[..|sorted| - 1], b) + [sorted[|sorted| - 1]]
  }

  /** Stable, by low edge. */
  function SortBands(t: seq<Band>): seq<Band> {
    if t == [] then [] else Insert(SortBands(t[..|t| - 1]), t[|t| - 1])
  }

  ghost predicate Rising(t: seq<Band>) {
    forall i, j :: 0 <= i < j < |t| ==> t[i].lowEdge <= t[j].lowEdge
  }

  lemma {:induction false} InsertPermutes(sorted: seq<Band>, b: Band)
    ensures multiset(Insert(sorted, b)) == multiset(sorted) + multiset{b}
  {
    if sorted != [] && sorted[|sorted| - 1].lowEdge > b.lowEdge {
      InsertPermutes(sorted[..|sorted| - 1], b);
      assert sorted == sorted[..|sorted| - 1] + [sorted[|sorted| - 1]];
    }
  }

  lemma {:induction false} InsertSorts(sorted: seq<Band>, b: Band, top: real)
    requires Rising(sorted) && b.lowEdge <= top && (sorted != [] ==> sorted[|sorted| - 1].lowEdge <= top)
    ensures Rising(Insert(sorted, b)) && Insert(sorted, b)[|Insert(sorted, b)| - 1].lowEdge <= top
  {
    if sorted != [] && sorted[|sorted| - 1].lowEdge > b.lowEdge {
      InsertSorts(sorted[..|sorted| - 1], b, sorted[|sorted| - 1].lowEdge);
    }
  }

  lemma {:induction false} SortSorts(t: seq<Band>)
    ensures Rising(SortBands(t)) && multiset(SortBands(t)) == multiset(t)
  {
    if t != [] {
      SortSorts(t[..|t| - 1]);
      var sorted, b := SortBands(t[..|t| - 1]), t[|t| - 1];
      InsertPermutes(sorted, b);
      InsertSorts(sorted, b, if sorted == [] || sorted[|sorted| - 1].lowEdge <= b.lowEdge then b.lowEdge
                             else sorted[|sorted| - 1].lowEdge);
      assert t == t[..|t| - 1] + [t[|t| - 1]];
    }
  }

  /** Unreadable and non-positive rows are dropped; a negative edge raises, which the caller treats like
      any wire error. */
  method FetchMarketRule(rows: seq<RawIncrement>) returns (t: Option<seq<Band>>)
    ensures t.None? <==> exists b :: b in Bands(rows) && b.lowEdge < 0.0
    ensures t.Some? ==> t.value == SortBands(Bands(rows))
    ensures t.Some? ==> Rising(t.value) && multiset(t.value) == multiset(Bands(rows))
  {
    var out := [];
    for i := 0 to |rows|
      invariant out == Bands(rows[..i]) && forall b :: b in out ==> b.lowEdge >= 0.0
    {
      assert rows[..i + 1][..i] == rows[..i];
      if Kept(rows[i]) {
        if rows[i].lowEdge.value.value < 0.0 {
          BandsGrow(rows, i + 1);
          assert BandOf(rows[i]) in Bands(rows[..i + 1]);
          return None;
        }
        out := out + [BandOf(rows[i])];
      }
    }
    assert rows[..|rows|] == rows;
    SortSorts(out);
    t := Some(SortBands(out));
  }

  lemma {:induction false} BandsGrow(rows: seq<RawIncrement>, n: nat)
    requires n <= |rows|
    ensures Bands(rows[..n]) <= Bands(rows)
  {
    if n < |rows| {
      BandsGrow(rows[..|rows| - 1], n);
      assert rows[..|rows| - 1][..n] == rows[..n];
    } else {
      assert rows[..n] == rows;
    }
  }

  // ---- The table of a contract -------------------------------------------------

  function MinTickTable(tick: Option<Written>): Result<seq<Band>, RuleError> {
    if tick.Some? && tick.value.value > 0.0 then Ok([Band(0.0, tick.value.value, tick.value.unit)])
    else Err(NoPriceRule)
  }

  /** The market rule's table when it has one, else one band from the minimum tick. */
  function TableFor(d: Details, wire: Wire): Result<seq<Band>, RuleError> {
    var id := GoverningRuleId(d, wire);
    var rows := if id.Some? then wire.rule(id.value) else None;
    if rows.Some? && Bands(rows.value) != [] && (forall b :: b in Bands(rows.value) ==> b.lowEdge >= 0.0)
    then Ok(SortBands(Bands(rows.value)))
    else MinTickTable(d.minTick)
  }

  method IncrementsFromDetails(d: Details, wire: Wire) returns (r: Result<seq<Band>, RuleError>)
    ensures r == TableFor(d, wire)
  {
    var id := GoverningRuleId(d, wire);
    if id.Some? {
      var rows := wire.rule(id.value);
      if rows.Some? {
        var banded := FetchMarketRule(rows.value);
        if banded.Some? {
          SortSorts(Bands(rows.value));
          assert |banded.value| == |multiset(banded.value)| == |multiset(Bands(rows.value))| == |Bands(rows.value)|;
          if banded.value != [] {
            return Ok(banded.value);
          }
        }
      }
    }
    r := MinTickTable(d.minTick);
  }

  /** Whose band this is: a row with both numbers readable and a positive increment. */
  lemma {:induction false} BandsAreRows(rows: seq<RawIncrement>, b: Band)
    ensures b in Bands(rows) <==>
            exists r :: r in rows && r.lowEdge.Some? && r.increment.Some? && r.increment.value.value > 0.0
                        && b == Band(r.lowEdge.value.value, r.increment.value.value, r.increment.value.unit)
  {
    if rows != [] {
      var init, r := rows[..|rows| - 1], rows[|rows| - 1];
      BandsAreRows(init, b);
      assert rows == init + [r];
      assert Kept(r) ==> (BandOf(r) == b <==>
                          b == Band(r.lowEdge.value.value, r.increment.value.value, r.increment.value.unit));
    }
  }

  function AtEdge(t: seq<Band>, edge: real): seq<Band> {
    if t == [] then []
    else AtEdge(t[..|t| - 1], edge) + if t[|t| - 1].lowEdge == edge then [t[|t| - 1]] else []
  }

  /** Sorting keeps bands of equal edge in the venue's order, which decides the one that governs. */
  lemma {:induction false} SortIsStable(t: seq<Band>, edge: real)
    ensures AtEdge(SortBands(t), edge) == AtEdge(t, edge)
  {
    if t != [] {
      SortIsStable(t[..|t| - 1], edge);
      SortSorts(t[..|t| - 1]);
      InsertAtEdge(SortBands(t[..|t| - 1]), t[|t| - 1], edge);
    }
  }

  lemma {:induction false} InsertAtEdge(sorted: seq<Band>, b: Band, edge: real)
    requires Rising(sorted)
    ensures AtEdge(Insert(sorted, b), edge) == AtEdge(sorted, edge) + if b.lowEdge == edge then [b] else []
  {
    if sorted == [] || sorted[|sorted| - 1].lowEdge <= b.lowEdge {
      assert (sorted + [b])[..|sorted|] == sorted;
    } else {
      var init, last := sorted[..|sorted| - 1], sorted[|sorted| - 1];
      InsertAtEdge(init, b, edge);
      assert (Insert(init, b) + [last])[..|Insert(init, b)|] == Insert(init, b);
    }
  }

  /** The table served: the governing rule's rows, when it can be fetched, has a usable row and no negative edge;
      else the minimum tick from 0 on, when positive; else none. */
  lemma TableByRule(d: Details, wire: Wire, i: nat)
    requires Governs(d, i) || (i == |d.ruleIds| && forall r :: r in d.ruleIds ==> r == "")
    ensures var id := if i < |d.ruleIds| then wire.readId(d.ruleIds[i]) else None;
            var bands := if id.Some? && wire.rule(id.value).Some? then Bands(wire.rule(id.value).value) else [];
            if bands != [] && forall b :: b in bands ==> b.lowEdge >= 0.0 then
              TableFor(d, wire).Ok? && multiset(TableFor(d, wire).value) == multiset(bands)
            else if d.minTick.Some? && d.minTick.value.value > 0.0 then
              TableFor(d, wire) == Ok([Band(0.0, d.minTick.value.value, d.minTick.value.unit)])
            else TableFor(d, wire) == Err(NoPriceRule)
  {
    GoverningByPosition(d, wire);
    var id := GoverningRuleId(d, wire);
    if id.Some? && wire.rule(id.value).Some? {
      SortSorts(Bands(wire.rule(id.value).value));
    }
  }

  // ---- What snapping may rely on ---------------------------------------------------

  /** Decimals are written to a positive unit. */
  ghost predicate WellWritten(d: Details, wire: Wire) {
    && (d.minTick.Some? ==> d.minTick.value.unit > 0.0)
    && forall id :: RuleWritten(wire, id)
  }

  ghost predicate RuleWritten(wire: Wire, id: int) {
    wire.rule(id).Some? ==> RowsWritten(wire.rule(id).value)
  }

  ghost predicate RowsWritten(rows: seq<RawIncrement>) {
    forall r :: r in rows && r.increment.Some? ==> r.increment.value.unit > 0.0
  }

  lemma {:induction false} BandsPositive(rows: seq<RawIncrement>)
    requires RowsWritten(rows)
    ensures UsableTable(Bands(rows))
  {
    if rows != [] {
      assert rows[|rows| - 1] in rows;
      BandsPositive(rows[..|rows| - 1]);
    }
  }

  /** Every served table is usable: not empty, sorted, with positive increments and no negative edge; so a
      priced order never meets an unusable table at the broker. */
  lemma ServedTableUsable(d: Details, wire: Wire)
    requires WellWritten(d, wire) && TableFor(d, wire).Ok?
    ensures var t := TableFor(d, wire).value;
            t != [] && UsableTable(t) && Rising(t) && forall b :: b in t ==> b.lowEdge >= 0.0
  {
    var id := GoverningRuleId(d, wire);
    if id.Some? && wire.rule(id.value).Some? {
      var bs := Bands(wire.rule(id.value).value);
      assert RuleWritten(wire, id.value);
      BandsPositive(wire.rule(id.value).value);
      SortSorts(bs);
      assert forall b :: b in SortBands(bs) <==> b in multiset(SortBands(bs));
      assert forall b :: b in bs <==> b in multiset(bs);
      assert |SortBands(bs)| == |multiset(SortBands(bs))| && |bs| == |multiset(bs)|;
    }
  }

  lemma ServedNeverBadTable(d: Details, wire: Wire, o: Order, policy: RoundingPolicy)
    requires WellWritten(d, wire) && TableFor(d, wire).Ok?
    ensures SnapOrder(o, Some(TableFor(d, wire).value), policy) != Err(BadTable)
  {
    ServedTableUsable(d, wire);
  }

  /** The minimum-tick table is a grid, so snapping to it needs no further assumption on the venue. */
  lemma MinTickIsGrid(tick: Written)
    requires tick.value > 0.0 && tick.unit > 0.0 && Multiple(tick.value, tick.unit)
    ensures MinTickTable(Some(tick)).Ok? && Grid(MinTickTable(Some(tick)).value)
  {
    assert 0.0 == Times(0, tick.unit);
    var b := Band(0.0, tick.value, tick.unit);
    assert ValidBand(b) && Multiple(b.lowEdge, b.unit);
  }

  // ---- The cache --------------------------------------------------------------------

  class IBPriceRuleService {
    var cache: map<Instrument, seq<Band>>

    constructor ()
      ensures cache == map[]
    {
      cache := map[];
    }

    /** A cached table is returned without asking; a fetched one is kept; a failure is not. No instrument's
        table depends on another's. */
    method IncrementsFor(inst: Instrument, details: Option<Details>, wire: Wire)
      returns (r: Result<seq<Band>, RuleError>, ghost asked: bool)
      modifies this
      ensures asked <==> inst !in old(cache)
      ensures !asked ==> r == Ok(old(cache)[inst])
      ensures asked ==> r == if details.Some? then TableFor(details.value, wire) else Err(NoPriceRule)
      ensures cache == if r.Ok? then old(cache)[inst := r.value] else old(cache)
    {
      asked := inst !in cache;
      if inst in cache {
        assert cache == cache[inst := cache[inst]];
        return Ok(cache[inst]), false;
      }
      if details.None? {
        return Err(NoPriceRule), true;
      }
      r := IncrementsFromDetails(details.value, wire);
      if r.Ok? {
        cache := cache[inst := r.value];
      }
    }

    method ClearCache(inst: Option<Instrument>)
      modifies this
      ensures cache == if inst.None? then map[] else old(cache) - {inst.value}
    {
      cache := if inst.None? then map[] else cache - {inst.value};
    }
  }
}
