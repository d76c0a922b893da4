/** What each rebalance looks at and asks for. */
module IBRounds {
  import opened Domain
  import opened Positions
  import opened Ledgers
  import opened Sizing
  import opened Risk
  import opened IBResults

  /** Vendor quotes to venue quotes: one catalogued instrument is quoted ten times too high. */
  function ToIbPrice(symbol: string, price: real): real {
    if symbol == "QQL3" then price / 10.0 else price
  }

  /** An order the sizer asked for, as it came to the risk gate. */
  datatype Candidate = Candidate(desired: Order, inputs: RiskInputs, now: int)

  /** How an order comes to the gate: on its symbol's bar, with that bar's venue price as reference. */
  function CandidateFor(o: Order, bars: map<string, Bar>, cfg: PipelineConfig, now: int): Candidate {
    var sym := o.instrument.symbol;
    Candidate(o, RiskInputs(if sym in bars then Some(bars[sym]) else None, true, cfg.artefacts,
                            Some(MarkOf(MarksOf(bars), sym))), now)
  }

  function MarksOf(bars: map<string, Bar>): map<string, real> {
    map sym | sym in bars :: ToIbPrice(sym, bars[sym].close)
  }

  function CandidatesOf(orders: seq<Order>, bars: map<string, Bar>, cfg: PipelineConfig, now: int): seq<Candidate> {
    seq(|orders|, i requires 0 <= i < |orders| => CandidateFor(orders[i], bars, cfg, now))
  }

  // ---- Bars ----------------------------------------------------------------

  /** The bar is the last of its instrument's tape closed by `t`. */
  ghost predicate LastBy(bar: Bar, tape: seq<Bar>, t: int) {
    && bar in tape && bar.closeTime <= t
    && (SortedBars(tape) ==> forall b :: b in tape && b.closeTime <= t ==> b.closeTime <= bar.closeTime)
  }

  ghost predicate BarsRight(bars: map<string, Bar>, instruments: seq<Instrument>, tapes: map<Instrument, seq<Bar>>,
                            t: int)
    requires forall i :: i in instruments ==> i in tapes
  {
    forall sym :: sym in bars ==> exists i :: i in instruments && i.symbol == sym && LastBy(bars[sym], tapes[i], t)
  }

  ghost predicate DistinctSymbols(instruments: seq<Instrument>) {
    forall i, j :: 0 <= i < j < |instruments| ==> instruments[i].symbol != instruments[j].symbol
  }

  predicate Here(tape: seq<Bar>, t: int) {
    tape != [] && tape[0].closeTime <= t
  }

  /** Symbols are distinct and every instrument but the canonical one has a bar by `t`. */
  ghost predicate AllHere(instruments: seq<Instrument>, tapes: map<Instrument, seq<Bar>>, t: int)
    requires forall i :: i in instruments ==> i in tapes
  {
    DistinctSymbols(instruments) && forall i :: 1 <= i < |instruments| ==> Here(tapes[instruments[i]], t)
  }

  /** The bars of the first `n` instruments, and whether they are all there. */
  ghost predicate Collected(bars: map<string, Bar>, instruments: seq<Instrument>, tapes: map<Instrument, seq<Bar>>,
                            t: int, n: nat)
    requires n <= |instruments| && forall i :: i in instruments ==> i in tapes
  {
    && BarsRight(bars, instruments, tapes, t) && bars.Keys <= SymbolsOf(instruments[..n]) && |bars| <= n
    && (|bars| == n <==> AllHere(instruments[..n], tapes, t))
    && (|bars| == n ==> bars.Keys == SymbolsOf(instruments[..n]))
  }

  lemma CollectedNext(bars: map<string, Bar>, instruments: seq<Instrument>, tapes: map<Instrument, seq<Bar>>, t: int,
                      n: nat, bar: Bar)
    requires 1 <= n < |instruments| && forall i :: i in instruments ==> i in tapes
    requires Collected(bars, instruments, tapes, t, n)
    requires Here(tapes[instruments[n]], t) && LastBy(bar, tapes[instruments[n]], t)
    ensures Collected(bars[instruments[n].symbol := bar], instruments, tapes, t, n + 1)
  {
    HereStep(instruments, tapes, t, n);
    CountNext(bars, instruments[n].symbol, bar, n);
    RightNext(bars, instruments, tapes, t, n, bar);
  }

  lemma CountNext(bars: map<string, Bar>, sym: string, bar: Bar, n: nat)
    requires |bars| <= n
    ensures bars[sym := bar].Keys == bars.Keys + {sym} && |bars[sym := bar]| <= n + 1
    ensures |bars[sym := bar]| == n + 1 <==> |bars| == n && sym !in bars
  {
    MapSize(bars, sym, bar);
  }

  lemma RightNext(bars: map<string, Bar>, instruments: seq<Instrument>, tapes: map<Instrument, seq<Bar>>, t: int,
                  n: nat, bar: Bar)
    requires n < |instruments| && forall i :: i in instruments ==> i in tapes
    requires BarsRight(bars, instruments, tapes, t) && LastBy(bar, tapes[instruments[n]], t)
    ensures BarsRight(bars[instruments[n].symbol := bar], instruments, tapes, t)
  {
    assert instruments[n] in instruments;
  }

  lemma CollectedMisses(bars: map<string, Bar>, instruments: seq<Instrument>, tapes: map<Instrument, seq<Bar>>, t: int,
                        n: nat)
    requires 1 <= n < |instruments| && forall i :: i in instruments ==> i in tapes
    requires Collected(bars, instruments, tapes, t, n) && !Here(tapes[instruments[n]], t)
    ensures Collected(bars, instruments, tapes, t, n + 1)
  {
    HereStep(instruments, tapes, t, n);
  }

  /** The bar of each instrument at `t`: the canonical one, else the latest at or before `t`. */
  method CollectBars(instruments: seq<Instrument>, canonical: Bar, tapes: map<Instrument, seq<Bar>>, t: int)
    returns (bars: map<string, Bar>)
    requires instruments != [] && forall i :: i in instruments ==> i in tapes
    requires canonical in tapes[instruments[0]] && canonical.closeTime == t
    ensures BarsRight(bars, instruments, tapes, t)
    ensures |bars| == |instruments| <==> AllHere(instruments, tapes, t)
    ensures |bars| == |instruments| ==> forall i :: i in instruments ==> i.symbol in bars
  {
    bars := map[instruments[0].symbol := canonical];
    assert instruments[0] in instruments && instruments[..1] == [instruments[0]];
    for i := 1 to |instruments|
      invariant Collected(bars, instruments, tapes, t, i)
    {
      var inst := instruments[i];
      assert inst in instruments;
      var other := Latest(tapes[inst], t);
      if other.Some? {
        CollectedNext(bars, instruments, tapes, t, i, other.value);
        bars := bars[inst.symbol := other.value];
      } else {
        CollectedMisses(bars, instruments, tapes, t, i);
      }
    }
    assert instruments[..|instruments|] == instruments;
  }

  ghost function SymbolsOf(instruments: seq<Instrument>): set<string> {
    set i | i in instruments :: i.symbol
  }

  lemma MapSize(m: map<string, Bar>, k: string, v: Bar)
    ensures |m[k := v]| == |m| + if k in m then 0 else 1
  {
    assert m[k := v].Keys == m.Keys + {k};
    assert |m[k := v]| == |m[k := v].Keys| && |m| == |m.Keys|;
  }

  lemma HereStep(instruments: seq<Instrument>, tapes: map<Instrument, seq<Bar>>, t: int, n: nat)
    requires 1 <= n < |instruments| && forall i :: i in instruments ==> i in tapes
    ensures AllHere(instruments[..n + 1], tapes, t) <==>
            AllHere(instruments[..n], tapes, t) && Here(tapes[instruments[n]], t)
            && instruments[n].symbol !in SymbolsOf(instruments[..n])
    ensures SymbolsOf(instruments[..n + 1]) == SymbolsOf(instruments[..n]) + {instruments[n].symbol}
  {
    var all, init, last := instruments[..n + 1], instruments[..n], instruments[n];
    assert all == init + [last];
    if last.symbol !in SymbolsOf(init) {
      forall i | 0 <= i < n
        ensures all[i].symbol != last.symbol
      {
        assert init[i] in init;
      }
    }
    if last.symbol in SymbolsOf(init) {
      var i :| i in init && i.symbol == last.symbol;
      var j :| 0 <= j < n && init[j] == i;
      assert all[j].symbol == all[n].symbol;
    }
  }

  // ---- Sizing --------------------------------------------------------------

  /** Later instruments of equal symbol win, as in a dictionary built by a loop. */
  function BySymbol(instruments: seq<Instrument>): (m: map<string, Instrument>)
    ensures forall i :: i in instruments ==> i.symbol in m
    ensures forall sym :: sym in m ==> m[sym] in instruments && m[sym].symbol == sym
  {
    if instruments == [] then map[]
    else
      var last := instruments[|instruments| - 1];
      BySymbol(instruments[..|instruments| - 1])[last.symbol := last]
  }

  function TargetsFor(instruments: seq<Instrument>, row: map<string, real>): (ts: seq<Target>)
    ensures |ts| == |instruments|
    ensures forall i :: 0 <= i < |ts| ==>
              ts[i].key == instruments[i].symbol && ts[i].weight == MarkOf(row, instruments[i].symbol)
  {
    seq(|instruments|, i requires 0 <= i < |instruments| =>
        Target(instruments[i].symbol, MarkOf(row, instruments[i].symbol)))
  }

  function PricesOf(instruments: seq<Instrument>, marks: map<string, real>): map<Instrument, real> {
    map i | i in instruments :: MarkOf(marks, i.symbol)
  }

  /** What the sizer is given: the weights of the row, equity and prices at the marks, the books' positions. */
  function SizingFor(positions: map<string, Position>, equity: real, cfg: PipelineConfig, instruments: seq<Instrument>,
                     marks: map<string, real>, row: map<string, real>): SizerInput {
    SizerInput(TargetsFor(instruments, row), equity, cfg.navSlice, positions, BySymbol(instruments),
               PricesOf(instruments, marks), cfg.strategyId)
  }

  /** Size against equity at the marks; every order is a market order in one of the instruments. */
  method SizeRebalance(l: Ledger, cfg: PipelineConfig, instruments: seq<Instrument>, marks: map<string, real>,
                       row: map<string, real>, nextId: OrderId)
    returns (r: Result<seq<Order>, SizerError>)
    requires forall i :: i in instruments ==> i.symbol in marks
    ensures var inp := SizingFor(l.positions, Equity(l, marks), cfg, instruments, marks, row);
            Resolvable(inp) && r == Sized(inp, nextId)
    ensures r.Ok? ==> forall o :: o in r.value ==>
              o.orderType == Mkt && o.instrument in instruments && Catalogued(o.instrument, BySymbol(instruments))
  {
    var equity := ComputeEquity(l, marks);
    var inp := SizingFor(l.positions, equity, cfg, instruments, marks, row);
    assert Resolvable(inp);
    r := SizeOrders(inp, nextId);
    if r.Ok? {
      SizedPrices(inp, |inp.targets|, nextId);
    }
  }

  // ---- Rounds --------------------------------------------------------------

  /** One rebalance: what was sized, from which id on, on which bars. */
  datatype Round = Round(sizing: SizerInput, firstId: OrderId, bars: map<string, Bar>, now: int)

  /** What a run is over: instruments, their tapes, and weight rows by close time. */
  datatype Market = Market(
    instruments: seq<Instrument>, tapes: map<Instrument, seq<Bar>>, weights: map<int, map<string, real>>)

  ghost predicate MarketOk(m: Market) {
    m.instruments != [] && forall i :: i in m.instruments ==> i in m.tapes
  }

  /** A round sized on the books as they are: the row's weights, equity and venue prices at the marks. */
  ghost function RoundFor(s: RunState, m: Market, bars: map<string, Bar>, t: int, cfg: PipelineConfig): Round
    requires t in m.weights
  {
    var marks := MarksOf(bars);
    Round(SizingFor(s.ledger.positions, Equity(s.ledger, marks), cfg, m.instruments, marks, m.weights[t]),
          s.nextId, bars, t)
  }

  /** Size this rebalance: market orders, each in an instrument with a bar. */
  method SizeRound(s: RunState, m: Market, bars: map<string, Bar>, t: int, cfg: PipelineConfig)
    returns (r: Result<seq<Order>, SizerError>, ghost rd: Round)
    requires t in m.weights && forall i :: i in m.instruments ==> i.symbol in bars
    ensures rd == RoundFor(s, m, bars, t, cfg) && Resolvable(rd.sizing) && r == Sized(rd.sizing, rd.firstId)
    ensures r.Ok? ==> forall o :: o in r.value ==>
              o.orderType == Mkt && o.instrument.symbol in bars && Catalogued(o.instrument, BySymbol(m.instruments))
  {
    r := SizeRebalance(s.ledger, cfg, m.instruments, MarksOf(bars), m.weights[t], s.nextId);
    rd := RoundFor(s, m, bars, t, cfg);
  }

  function TimesOf(curve: seq<EquityPoint>): seq<int> {
    seq(|curve|, i requires 0 <= i < |curve| => curve[i].time)
  }
}
