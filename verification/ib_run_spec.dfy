/** What a pipeline run is, as a function of its history, and what every run keeps. */
module IBRunSpec {
  import opened Domain
  import opened EventQueue
  import opened Ledgers
  import opened Sizing
  import opened SizingInMoney
  import opened Risk
  import opened Draining
  import opened OrderEvents
  import opened IBResults
  import opened IBRounds

  // ---- The gate --------------------------------------------------------------

  function LimitPrice(side: OrderSide, reference: real, bps: real): real {
    var scale := bps / 10000.0;
    if side == Buy then reference * (1.0 + scale) else reference * (1.0 - scale)
  }

  /** The order sent for an approved one, or the failure of its own checks. */
  function IbOrder(desired: Order, bar: Bar, orderType: OrderType, bps: real, id: OrderId): Result<Order, RunError> {
    var o := desired.(
             id := id, orderType := orderType, stopPrice := None,
             limitPrice := if orderType == Lmt
                           then Some(LimitPrice(desired.side, ToIbPrice(desired.instrument.symbol, bar.close), bps))
                           else None);
    if orderType in {Mkt, AdaptiveMkt, Lmt} && ValidOrder(o) then Ok(o) else Err(OrderFailed)
  }

  /** A non-negative offset makes every limit marketable at the bar's close. */
  lemma LimitIsMarketable(desired: Order, bar: Bar, bps: real, id: OrderId)
    requires bps >= 0.0 && bar.close > 0.0 && IbOrder(desired, bar, Lmt, bps, id).Ok?
    ensures var limit := IbOrder(desired, bar, Lmt, bps, id).value.limitPrice.value;
            var reference := ToIbPrice(desired.instrument.symbol, bar.close);
            if desired.side == Buy then reference <= limit else limit <= reference
  {
    var reference, scale := ToIbPrice(desired.instrument.symbol, bar.close), bps / 10000.0;
    assert reference * scale >= 0.0;
    assert reference * (1.0 + scale) == reference + reference * scale;
    assert reference * (1.0 - scale) == reference - reference * scale;
  }

  /** The order type configured for a symbol, else the general one. */
  function TypeFor(cfg: PipelineConfig, symbol: string): OrderType {
    if symbol in cfg.typeBySymbol then cfg.typeBySymbol[symbol] else cfg.orderType
  }

  predicate Pass(c: RiskConfig, armed: bool, k: Candidate) {
    forall check :: check in CHECK_ORDER ==> Passes(c, check, armed, k.desired, k.inputs, k.now)
  }

  // ---- One candidate order -----------------------------------------------------

  /** What an operator does to the kill switch; arming without a reason is refused. */
  datatype KillMove = ArmFor(reason: string) | Clear

  /** The switch after some moves. */
  function Latch(armed: bool, moves: seq<KillMove>): bool {
    if moves == [] then armed
    else
      var move := moves[|moves| - 1];
      if move.Clear? then false else Latch(armed, moves[..|moves| - 1]) || move.reason != ""
  }

  /** What became of a candidate: stopped at the gate, or submitted and followed. `moves` were made since
      the gate before, and `armed` is what this gate saw. */
  datatype Entry =
    | Dropped(k: Candidate, moves: seq<KillMove>, armed: bool, breaches: seq<Breach>)
    | Traded(k: Candidate, moves: seq<KillMove>, armed: bool, breaches: seq<Breach>, record: Record)

  function Blocks(breaches: seq<Breach>): nat {
    if breaches == [] then 0
    else Blocks(breaches[..|breaches| - 1]) + if breaches[|breaches| - 1].severity == Block then 1 else 0
  }

  /** Exactly the candidates that pass are submitted, as the order built from the approved one on its own
      bar; one that fails leaves one block. The price-sanity check never fires: the sizer only makes market
      orders. */
  ghost predicate EntryOk(c: RiskConfig, cfg: PipelineConfig, e: Entry) {
    && (e.Traded? <==> Pass(c, e.armed, e.k)) && Blocks(e.breaches) == (if e.Traded? then 0 else 1)
    && (forall b :: b in e.breaches ==> b.check != RC10)
    && (e.Traded? ==> RecordOk(cfg, e.k, e.record))
  }

  ghost predicate RecordOk(cfg: PipelineConfig, k: Candidate, r: Record) {
    && k == Candidate(r.desired, r.inputs, r.now) && k.inputs.lastBar.Some? && OwnFills(r)
    && IbOrder(k.desired, k.inputs.lastBar.value, TypeFor(cfg, k.desired.instrument.symbol), cfg.offsetBps,
               r.order.id) == Ok(r.order)
  }

  ghost predicate EntriesOk(c: RiskConfig, cfg: PipelineConfig, es: seq<Entry>) {
    forall e :: e in es ==> EntryOk(c, cfg, e)
  }

  function Enter(s: RunState, strategyId: string, e: Entry): Result<RunState, RunError> {
    var s1 := s.(breaches := s.breaches + e.breaches);
    if e.Dropped? then Ok(s1)
    else
      match BookResult(s1, strategyId, e.record)
      case Err(x) => Err(x)
      case Ok(s2) => Ok(s2.(nextId := e.record.order.id + 1))
  }

  function EnterAll(s: RunState, strategyId: string, es: seq<Entry>): Result<RunState, RunError> {
    if es == [] then Ok(s)
    else
      match EnterAll(s, strategyId, es[..|es| - 1])
      case Err(x) => Err(x)
      case Ok(s1) => Enter(s1, strategyId, es[|es| - 1])
  }

  function CandidatesIn(es: seq<Entry>): seq<Candidate> {
    seq(|es|, i requires 0 <= i < |es| => es[i].k)
  }

  function RecordsIn(es: seq<Entry>): seq<Record> {
    if es == [] then []
    else RecordsIn(es[..|es| - 1]) + if es[|es| - 1].Traded? then [es[|es| - 1].record] else []
  }

  lemma EnterSnoc(s: RunState, strategyId: string, es: seq<Entry>, e: Entry)
    requires EnterAll(s, strategyId, es).Ok?
    ensures EnterAll(s, strategyId, es + [e]) == Enter(EnterAll(s, strategyId, es).value, strategyId, e)
    ensures RecordsIn(es + [e]) == RecordsIn(es) + if e.Traded? then [e.record] else []
    ensures CandidatesIn(es + [e]) == CandidatesIn(es) + [e.k]
  {
    assert (es + [e])[..|es|] == es;
  }

  // ---- What is sent ----------------------------------------------------------------

  /** What is sent is what the gate saw: instrument, side, quantity and strategy of the candidate, the type
      configured for its symbol, no stop price, and a limit price exactly on limit orders, off the bar's close (a
      tenth of it for QQL3) by the offset in basis points, up for a buy and down for a sell. */
  ghost predicate SentAs(cfg: PipelineConfig, r: Record) {
    var o, sym := r.order, r.desired.instrument.symbol;
    && o.instrument == r.desired.instrument && o.side == r.desired.side && o.quantity == r.desired.quantity
    && o.strategyId == r.desired.strategyId && o.stopPrice == None
    && o.orderType == (if sym in cfg.typeBySymbol then cfg.typeBySymbol[sym] else cfg.orderType)
    && o.orderType in {Mkt, Lmt, AdaptiveMkt} && (o.limitPrice.Some? <==> o.orderType == Lmt)
    && r.inputs.lastBar.Some?
    && (o.orderType == Lmt ==>
          var close := r.inputs.lastBar.value.close;
          var reference := if sym == "QQL3" then close / 10.0 else close;
          10000.0 * (o.limitPrice.value - reference) ==
          (if o.side == Buy then cfg.offsetBps * reference else -(cfg.offsetBps * reference)))
  }

  ghost predicate AllSent(cfg: PipelineConfig, records: seq<Record>) {
    forall r :: r in records ==> SentAs(cfg, r)
  }

  lemma LimitOffset(side: OrderSide, reference: real, bps: real)
    ensures 10000.0 * (LimitPrice(side, reference, bps) - reference) ==
            if side == Buy then bps * reference else -(bps * reference)
  {
    var scale := bps / 10000.0;
    assert reference * (1.0 + scale) == reference + reference * scale;
    assert reference * (1.0 - scale) == reference - reference * scale;
    assert reference * scale * 10000.0 == reference * bps;
  }

  lemma RecordSent(cfg: PipelineConfig, k: Candidate, r: Record)
    requires RecordOk(cfg, k, r)
    ensures SentAs(cfg, r)
  {
    var bar, sym := r.inputs.lastBar.value, r.desired.instrument.symbol;
    LimitOffset(r.desired.side, ToIbPrice(sym, bar.close), cfg.offsetBps);
  }

  lemma {:induction false} SentAsGated(c: RiskConfig, cfg: PipelineConfig, es: seq<Entry>)
    requires EntriesOk(c, cfg, es)
    ensures AllSent(cfg, RecordsIn(es))
  {
    if es != [] {
      var e := es[|es| - 1];
      assert e in es && forall x :: x in es[..|es| - 1] ==> x in es;
      SentAsGated(c, cfg, es[..|es| - 1]);
      if e.Traded? {
        RecordSent(cfg, e.k, e.record);
      }
    }
  }

  // ---- One rebalance -------------------------------------------------------------

  datatype Rebalanced = Rebalanced(rd: Round, entries: seq<Entry>)

  /** Number the sized orders, trade them, mark equity. */
  ghost function AfterRound(s: RunState, cfg: PipelineConfig, x: Rebalanced): Result<RunState, RunError>
    requires Resolvable(x.rd.sizing)
  {
    match Sized(x.rd.sizing, x.rd.firstId)
    case Err(e) => Err(SizerFailed(e))
    case Ok(orders) =>
      match EnterAll(s.(nextId := s.nextId + |orders|), cfg.strategyId, x.entries)
      case Err(e) => Err(e)
      case Ok(s1) => Ok(Close(s1, MarksOf(x.rd.bars), x.rd.now))
  }

  /** Sized on the books as they are, at the venue prices of each instrument's last bar closed by then; and
      every order the sizer asks for comes to the gate, in order. */
  ghost predicate RoundLegal(m: Market, c: RiskConfig, cfg: PipelineConfig, s: RunState, x: Rebalanced)
    requires MarketOk(m)
  {
    && x.rd.now in m.weights && BarsRight(x.rd.bars, m.instruments, m.tapes, x.rd.now)
    && x.rd == RoundFor(s, m, x.rd.bars, x.rd.now, cfg)
    && Resolvable(x.rd.sizing) && Sized(x.rd.sizing, x.rd.firstId).Ok?
    && CandidatesIn(x.entries) == CandidatesOf(Sized(x.rd.sizing, x.rd.firstId).value, x.rd.bars, cfg, x.rd.now)
    && EntriesOk(c, cfg, x.entries)
  }

  // ---- A run ------------------------------------------------------------------------

  function StartState(cash: real, nextId: OrderId): RunState {
    RunState(Ledger(cash, map[]), 0, 0, 0, 0, 0, map[], map[], [], [], nextId)
  }

  /** Where the rebalances lead, when each was legal where it started. */
  ghost function After(m: Market, c: RiskConfig, cfg: PipelineConfig, s: RunState,
                       xs: seq<Rebalanced>): Option<RunState>
    requires MarketOk(m)
  {
    if xs == [] then Some(s)
    else
      var x := xs[|xs| - 1];
      match After(m, c, cfg, s, xs[..|xs| - 1])
      case None => None
      case Some(s1) =>
        if RoundLegal(m, c, cfg, s1, x) && AfterRound(s1, cfg, x).Ok? then Some(AfterRound(s1, cfg, x).value)
        else None
  }

  function EnterLog(log: Log, es: seq<Entry>): Log {
    if es == [] then log
    else
      var e, log1 := es[|es| - 1], EnterLog(log, es[..|es| - 1]);
      if e.Traded? then Extend(log1, e.record) else log1
  }

  /** The fills, orders and booking points of a run. */
  function LogOf(xs: seq<Rebalanced>): Log {
    if xs == [] then NO_LOG
    else
      var log := EnterLog(LogOf(xs[..|xs| - 1]), xs[|xs| - 1].entries);
      CloseLog(log)
  }

  function CloseLog(log: Log): Log {
    log.(bookedAt := log.bookedAt + [|log.applied|])
  }

  /** Every candidate of a run, in the order they came to the gate. */
  function AllEntries(xs: seq<Rebalanced>): seq<Entry> {
    if xs == [] then [] else AllEntries(xs[..|xs| - 1]) + xs[|xs| - 1].entries
  }

  function TimesIn(xs: seq<Rebalanced>): seq<int> {
    seq(|xs|, i requires 0 <= i < |xs| => xs[i].rd.now)
  }

  lemma RunSnoc(m: Market, c: RiskConfig, cfg: PipelineConfig, s: RunState, xs: seq<Rebalanced>,
                x: Rebalanced)
    requires MarketOk(m) && After(m, c, cfg, s, xs).Some?
    ensures var s1 := After(m, c, cfg, s, xs).value;
            RoundLegal(m, c, cfg, s1, x) && AfterRound(s1, cfg, x).Ok? ==>
              After(m, c, cfg, s, xs + [x]) == Some(AfterRound(s1, cfg, x).value)
    ensures AllEntries(xs + [x]) == AllEntries(xs) + x.entries && TimesIn(xs + [x]) == TimesIn(xs) + [x.rd.now]
  {
    assert (xs + [x])[..|xs|] == xs;
  }

  // ---- What every run keeps ------------------------------------------------------------

  lemma EntryKeeps(s: RunState, log: Log, start: real, c: RiskConfig, cfg: PipelineConfig, e: Entry)
    requires Sound(s, log, start) && EntryOk(c, cfg, e) && Enter(s, cfg.strategyId, e).Ok?
    ensures Sound(Enter(s, cfg.strategyId, e).value, if e.Traded? then Extend(log, e.record) else log, start)
  {
    var s1 := s.(breaches := s.breaches + e.breaches);
    SoundAnyBreaches(s, s1.breaches, log, start);
    if e.Traded? {
      BookKeeps(s1, log, start, cfg.strategyId, e.record);
      SoundAnyId(BookResult(s1, cfg.strategyId, e.record).value, e.record.order.id + 1, Extend(log, e.record), start);
    }
  }

  lemma {:induction false} EntriesKeep(s: RunState, log: Log, start: real, c: RiskConfig, cfg: PipelineConfig,
                                       es: seq<Entry>)
    requires Sound(s, log, start) && EntriesOk(c, cfg, es) && EnterAll(s, cfg.strategyId, es).Ok?
    ensures Sound(EnterAll(s, cfg.strategyId, es).value, EnterLog(log, es), start)
  {
    if es != [] {
      var init := es[..|es| - 1];
      assert es[|es| - 1] in es && forall e :: e in init ==> e in es;
      EntriesKeep(s, log, start, c, cfg, init);
      EntryKeeps(EnterAll(s, cfg.strategyId, init).value, EnterLog(log, init), start, c, cfg, es[|es| - 1]);
    }
  }

  lemma {:induction false} EntriesRecorded(log: Log, es: seq<Entry>)
    ensures EnterLog(log, es).records == log.records + RecordsIn(es) && EnterLog(log, es).bookedAt == log.bookedAt
  {
    if es != [] {
      EntriesRecorded(log, es[..|es| - 1]);
    }
  }

  lemma EntryKeepsCurve(s: RunState, strategyId: string, e: Entry)
    requires Enter(s, strategyId, e).Ok?
    ensures Enter(s, strategyId, e).value.curve == s.curve
  {
  }

  lemma {:induction false} EntriesKeepCurve(s: RunState, strategyId: string, es: seq<Entry>)
    requires EnterAll(s, strategyId, es).Ok?
    ensures EnterAll(s, strategyId, es).value.curve == s.curve
  {
    if es != [] {
      EntriesKeepCurve(s, strategyId, es[..|es| - 1]);
      EntryKeepsCurve(EnterAll(s, strategyId, es[..|es| - 1]).value, strategyId, es[|es| - 1]);
    }
  }

  lemma RoundKeeps(c: RiskConfig, cfg: PipelineConfig, s: RunState, log: Log, start: real,
                   x: Rebalanced, s': RunState)
    requires Sound(s, log, start) && Resolvable(x.rd.sizing) && EntriesOk(c, cfg, x.entries)
    requires AfterRound(s, cfg, x).Ok? && s' == AfterRound(s, cfg, x).value
    ensures Sound(s', CloseLog(EnterLog(log, x.entries)), start)
  {
    var orders := Sized(x.rd.sizing, x.rd.firstId).value;
    var s0 := s.(nextId := s.nextId + |orders|);
    var s1 := EnterAll(s0, cfg.strategyId, x.entries).value;
    RoundAfter(s, cfg, x, orders, s1);
    assert s' == Close(s1, MarksOf(x.rd.bars), x.rd.now);
    ClosedSound(s, s0, s1, log, start, c, cfg, x.entries, MarksOf(x.rd.bars), x.rd.now);
  }

  lemma ClosedSound(s: RunState, s0: RunState, s1: RunState, log: Log, start: real, c: RiskConfig, cfg: PipelineConfig,
                    es: seq<Entry>, marks: map<string, real>, t: int)
    requires Sound(s, log, start) && s0 == s.(nextId := s0.nextId) && EntriesOk(c, cfg, es)
    requires EnterAll(s0, cfg.strategyId, es).Ok? && s1 == EnterAll(s0, cfg.strategyId, es).value
    ensures Sound(Close(s1, marks, t), CloseLog(EnterLog(log, es)), start)
  {
    SoundAnyId(s, s0.nextId, log, start);
    EntriesKeep(s0, log, start, c, cfg, es);
    CloseKeeps(s1, EnterLog(log, es), start, marks, t);
  }

  lemma RoundTime(s: RunState, cfg: PipelineConfig, x: Rebalanced)
    requires Resolvable(x.rd.sizing) && AfterRound(s, cfg, x).Ok?
    ensures TimesOf(AfterRound(s, cfg, x).value.curve) == TimesOf(s.curve) + [x.rd.now]
  {
    var s0 := s.(nextId := s.nextId + |Sized(x.rd.sizing, x.rd.firstId).value|);
    EntriesKeepCurve(s0, cfg.strategyId, x.entries);
  }

  lemma RoundAfter(s: RunState, cfg: PipelineConfig, x: Rebalanced, orders: seq<Order>, s1: RunState)
    requires Resolvable(x.rd.sizing) && Sized(x.rd.sizing, x.rd.firstId) == Ok(orders)
    requires var s0 := s.(nextId := s.nextId + |orders|);
             EnterAll(s0, cfg.strategyId, x.entries).Ok? && EnterAll(s0, cfg.strategyId, x.entries).value == s1
    ensures AfterRound(s, cfg, x) == Ok(Close(s1, MarksOf(x.rd.bars), x.rd.now))
  {
  }

  lemma StartSound(cash: real, nextId: OrderId)
    ensures Sound(StartState(cash, nextId), NO_LOG, cash)
  {
    ConservedStart(cash);
    assert AsReals(map[]) == map[];
  }

  lemma AfterLast(m: Market, c: RiskConfig, cfg: PipelineConfig, s: RunState, xs: seq<Rebalanced>)
    requires MarketOk(m) && xs != [] && After(m, c, cfg, s, xs).Some?
    ensures var init, x := xs[..|xs| - 1], xs[|xs| - 1];
            After(m, c, cfg, s, init).Some? &&
            var s1 := After(m, c, cfg, s, init).value;
            && RoundLegal(m, c, cfg, s1, x) && AfterRound(s1, cfg, x).Ok?
            && After(m, c, cfg, s, xs).value == AfterRound(s1, cfg, x).value
  {
  }

  /** After any number of rebalances: every counter counts its outcome; equity at every point is starting
      cash plus the gains of the fills booked by then; each quantity is the signed sum of its fills; and the
      booked fills are those of the submitted orders' answers. */
  lemma {:induction false} EveryRunSound(m: Market, c: RiskConfig, cfg: PipelineConfig, cash: real,
                                         nextId: OrderId, xs: seq<Rebalanced>)
    requires MarketOk(m) && After(m, c, cfg, StartState(cash, nextId), xs).Some?
    ensures Sound(After(m, c, cfg, StartState(cash, nextId), xs).value, LogOf(xs), cash)
  {
    if xs == [] {
      StartSound(cash, nextId);
    } else {
      var init, x := xs[..|xs| - 1], xs[|xs| - 1];
      AfterLast(m, c, cfg, StartState(cash, nextId), xs);
      EveryRunSound(m, c, cfg, cash, nextId, init);
      RoundKeeps(c, cfg, After(m, c, cfg, StartState(cash, nextId), init).value, LogOf(init), cash, x,
                 After(m, c, cfg, StartState(cash, nextId), xs).value);
    }
  }

  /** The log's records are the submissions, in order. */
  lemma {:induction false} EveryRunLogged(xs: seq<Rebalanced>)
    ensures LogOf(xs).records == RecordsIn(AllEntries(xs))
  {
    if xs != [] {
      EveryRunLogged(xs[..|xs| - 1]);
      EntriesRecorded(LogOf(xs[..|xs| - 1]), xs[|xs| - 1].entries);
      RecordsAppend(AllEntries(xs[..|xs| - 1]), xs[|xs| - 1].entries);
    }
  }

  /** One equity point per rebalance, at its time. */
  lemma {:induction false} EveryRunTimed(m: Market, c: RiskConfig, cfg: PipelineConfig, s: RunState,
                                         xs: seq<Rebalanced>)
    requires MarketOk(m) && After(m, c, cfg, s, xs).Some?
    ensures TimesOf(After(m, c, cfg, s, xs).value.curve) == TimesOf(s.curve) + TimesIn(xs)
  {
    if xs == [] {
      assert TimesOf(s.curve) + [] == TimesOf(s.curve);
    } else {
      var init, x := xs[..|xs| - 1], xs[|xs| - 1];
      AfterLast(m, c, cfg, s, xs);
      EveryRunTimed(m, c, cfg, s, init);
      RoundTime(After(m, c, cfg, s, init).value, cfg, x);
      TimesSnoc(TimesOf(s.curve), xs);
    }
  }

  lemma TimesSnoc(before: seq<int>, xs: seq<Rebalanced>)
    requires xs != []
    ensures before + TimesIn(xs) == before + TimesIn(xs[..|xs| - 1]) + [xs[|xs| - 1].rd.now]
  {
    assert TimesIn(xs) == TimesIn(xs[..|xs| - 1]) + [xs[|xs| - 1].rd.now];
  }

  // ---- What a rebalance asks for ----------------------------------------------------------

  /** Marks in the venue's quotes: the bars' closes, a tenth of it for QQL3. */
  ghost predicate VenueMarks(marks: map<string, real>, bars: map<string, Bar>) {
    && marks.Keys == bars.Keys
    && forall sym :: sym in bars ==> marks[sym] == if sym == "QQL3" then bars[sym].close / 10.0 else bars[sym].close
  }

  /** The sizer's input in the run's own terms: one target per instrument at the weight of its symbol in the row,
      zero if the row lacks it; the configured slice of the equity of the books at venue marks; and prices at the
      same marks. */
  ghost predicate SizedOnBooks(inp: SizerInput, l: Ledger, cfg: PipelineConfig, instruments: seq<Instrument>,
                               bars: map<string, Bar>, row: map<string, real>) {
    && inp.navSlice == cfg.navSlice && inp.strategyId == cfg.strategyId && inp.positions == l.positions
    && |inp.targets| == |instruments|
    && (forall i :: 0 <= i < |instruments| ==>
          var sym := instruments[i].symbol;
          inp.targets[i] == Target(sym, if sym in row then row[sym] else 0.0))
    && exists marks ::
         && VenueMarks(marks, bars) && inp.equity == Equity(l, marks)
         && forall inst :: inst in instruments && inst.symbol in bars ==>
              inst in inp.prices && inp.prices[inst] == marks[inst.symbol]
  }

  /** Every candidate of a rebalance, in money: the orders that close the targets' gaps, in order, each in turn at
      the gate with its own symbol's bar. */
  lemma RoundInMoney(m: Market, c: RiskConfig, cfg: PipelineConfig, s: RunState, x: Rebalanced)
    requires MarketOk(m) && RoundLegal(m, c, cfg, s, x)
    ensures SizedOnBooks(x.rd.sizing, s.ledger, cfg, m.instruments, x.rd.bars, m.weights[x.rd.now])
    ensures exists orders ::
              Answered(x.rd.sizing, |x.rd.sizing.targets|, orders) && AllBrought(x.entries, orders, cfg, x.rd)
  {
    var orders := Sized(x.rd.sizing, x.rd.firstId).value;
    SizingOnBooks(s.ledger, cfg, m.instruments, x.rd.bars, m.weights[x.rd.now]);
    OrdersCloseGaps(x.rd.sizing, x.rd.firstId);
    CandidatesBrought(x.entries, orders, cfg, x.rd);
  }

  /** The rebalance is right on the books it found. */
  ghost predicate RightOn(m: Market, cfg: PipelineConfig, s: RunState, x: Rebalanced)
    requires MarketOk(m)
  {
    && x.rd.now in m.weights && Resolvable(x.rd.sizing)
    && SizedOnBooks(x.rd.sizing, s.ledger, cfg, m.instruments, x.rd.bars, m.weights[x.rd.now])
    && exists orders ::
         Answered(x.rd.sizing, |x.rd.sizing.targets|, orders) && AllBrought(x.entries, orders, cfg, x.rd)
  }

  /** Every rebalance is right on the books the ones before it left. */
  ghost predicate AllRight(m: Market, c: RiskConfig, cfg: PipelineConfig, s: RunState, xs: seq<Rebalanced>)
    requires MarketOk(m)
  {
    xs == [] ||
    var before := After(m, c, cfg, s, xs[..|xs| - 1]);
    && AllRight(m, c, cfg, s, xs[..|xs| - 1])
    && before.Some? && RightOn(m, cfg, before.value, xs[|xs| - 1])
  }

  /** And so in every run. */
  lemma {:induction false} EveryRoundInMoney(m: Market, c: RiskConfig, cfg: PipelineConfig, s: RunState,
                                             xs: seq<Rebalanced>)
    requires MarketOk(m) && After(m, c, cfg, s, xs).Some?
    ensures AllRight(m, c, cfg, s, xs)
  {
    if xs != [] {
      AfterLast(m, c, cfg, s, xs);
      EveryRoundInMoney(m, c, cfg, s, xs[..|xs| - 1]);
      RoundInMoney(m, c, cfg, After(m, c, cfg, s, xs[..|xs| - 1]).value, xs[|xs| - 1]);
    }
  }

  lemma SizingOnBooks(l: Ledger, cfg: PipelineConfig, instruments: seq<Instrument>, bars: map<string, Bar>,
                      row: map<string, real>)
    ensures SizedOnBooks(SizingFor(l.positions, Equity(l, MarksOf(bars)), cfg, instruments, MarksOf(bars), row), l,
                         cfg, instruments, bars, row)
  {
    assert VenueMarks(MarksOf(bars), bars);
  }

  /** One candidate per order, in order. */
  ghost predicate AllBrought(es: seq<Entry>, orders: seq<Order>, cfg: PipelineConfig, rd: Round) {
    |es| == |orders| && forall i :: 0 <= i < |orders| ==> BroughtToGate(es[i].k, orders[i], cfg, rd)
  }

  lemma CandidatesBrought(es: seq<Entry>, orders: seq<Order>, cfg: PipelineConfig, rd: Round)
    requires CandidatesIn(es) == CandidatesOf(orders, rd.bars, cfg, rd.now)
    ensures AllBrought(es, orders, cfg, rd)
  {
    assert |CandidatesIn(es)| == |CandidatesOf(orders, rd.bars, cfg, rd.now)|;
    forall i | 0 <= i < |orders|
      ensures BroughtToGate(es[i].k, orders[i], cfg, rd)
    {
      assert CandidatesIn(es)[i] == CandidatesOf(orders, rd.bars, cfg, rd.now)[i];
    }
  }

  ghost predicate BroughtToGate(k: Candidate, o: Order, cfg: PipelineConfig, rd: Round) {
    && k.desired == o && k.now == rd.now && k.inputs.marketOpen && k.inputs.artefacts == cfg.artefacts
    && k.inputs.lastBar == if o.instrument.symbol in rd.bars then Some(rd.bars[o.instrument.symbol]) else None
  }

  // ---- No bypass, no look-ahead ---------------------------------------------------------

  /** A submitted order rests on its instrument's last bar closed by then, no older than the staleness
      limit, at a time with a weight row. */
  ghost predicate Grounded(m: Market, c: RiskConfig, r: Record)
    requires MarketOk(m)
  {
    && r.now in m.weights && r.inputs.lastBar.Some?
    && 0 <= r.now - r.inputs.lastBar.value.closeTime
         <= 1000000 * (if c.isIntraday then c.maxStalenessIntradaySec else c.maxStalenessDailySec)
    && LastBarOf(m, r.desired.instrument.symbol, r.inputs.lastBar.value, r.now)
  }

  ghost predicate LastBarOf(m: Market, sym: string, bar: Bar, t: int)
    requires MarketOk(m)
  {
    exists i :: i in m.instruments && i.symbol == sym && LastBy(bar, m.tapes[i], t)
  }

  /** Whatever was submitted passed a gate that saw the switch unarmed, and looked at no later bar. */
  ghost predicate AllGrounded(m: Market, c: RiskConfig, es: seq<Entry>)
    requires MarketOk(m)
  {
    forall e :: e in es && e.Traded? ==> !e.armed && Grounded(m, c, e.record)
  }

  lemma RoundGrounded(m: Market, c: RiskConfig, cfg: PipelineConfig, s: RunState, x: Rebalanced)
    requires MarketOk(m) && RoundLegal(m, c, cfg, s, x)
    ensures AllGrounded(m, c, x.entries)
  {
    var orders := Sized(x.rd.sizing, x.rd.firstId).value;
    forall i | 0 <= i < |x.entries| && x.entries[i].Traded?
      ensures !x.entries[i].armed && Grounded(m, c, x.entries[i].record)
    {
      var e := x.entries[i];
      assert CandidatesIn(x.entries)[i] == CandidatesOf(orders, x.rd.bars, cfg, x.rd.now)[i];
      PassedFresh(c, cfg, e, orders[i], x.rd.bars, x.rd.now);
      BarIsLast(m, x.rd.bars, x.rd.now, orders[i].instrument.symbol);
    }
  }

  lemma BarIsLast(m: Market, bars: map<string, Bar>, t: int, sym: string)
    requires MarketOk(m) && BarsRight(bars, m.instruments, m.tapes, t)
    ensures sym in bars ==> LastBarOf(m, sym, bars[sym], t) && bars[sym].closeTime <= t
  {
  }

  lemma PassedFresh(c: RiskConfig, cfg: PipelineConfig, e: Entry, o: Order, bars: map<string, Bar>, now: int)
    requires EntryOk(c, cfg, e) && e.Traded? && e.k == CandidateFor(o, bars, cfg, now)
    ensures !e.armed && o.instrument.symbol in bars && e.record.desired == o && e.record.now == now
    ensures e.record.inputs.lastBar == Some(bars[o.instrument.symbol])
    ensures now <= bars[o.instrument.symbol].closeTime + Threshold(c)
  {
    assert CHECK_ORDER[0] in CHECK_ORDER && CHECK_ORDER[1] in CHECK_ORDER;
  }

  lemma {:induction false} RecordsTraded(es: seq<Entry>)
    ensures forall r :: r in RecordsIn(es) ==> exists e :: e in es && e.Traded? && e.record == r
  {
    if es != [] {
      RecordsTraded(es[..|es| - 1]);
      assert es[|es| - 1] in es;
    }
  }

  /** In every run, every submission is grounded. */
  lemma {:induction false} NoLookAhead(m: Market, c: RiskConfig, cfg: PipelineConfig, s: RunState,
                                       xs: seq<Rebalanced>)
    requires MarketOk(m) && After(m, c, cfg, s, xs).Some?
    ensures AllGrounded(m, c, AllEntries(xs)) && EntriesOk(c, cfg, AllEntries(xs))
    ensures forall r :: r in LogOf(xs).records ==> Grounded(m, c, r)
    ensures AllSent(cfg, LogOf(xs).records)
  {
    if xs != [] {
      var init, x := xs[..|xs| - 1], xs[|xs| - 1];
      AfterLast(m, c, cfg, s, xs);
      NoLookAhead(m, c, cfg, s, init);
      RoundGrounded(m, c, cfg, After(m, c, cfg, s, init).value, x);
    }
    EveryRunLogged(xs);
    RecordsTraded(AllEntries(xs));
    SentAsGated(c, cfg, AllEntries(xs));
  }

  // ---- The kill switch -------------------------------------------------------------------

  function MovesIn(es: seq<Entry>): seq<KillMove> {
    if es == [] then [] else MovesIn(es[..|es| - 1]) + es[|es| - 1].moves
  }

  /** Every gate saw the switch as the moves before it left it. */
  ghost predicate Latched(armed: bool, es: seq<Entry>) {
    es == [] || (Latched(armed, es[..|es| - 1]) && es[|es| - 1].armed == Latch(armed, MovesIn(es)))
  }

  /** Some arming with a reason, or armed from the start, and no clearing since. */
  ghost predicate InForce(armed: bool, moves: seq<KillMove>) {
    || (armed && Clear !in moves)
    || exists k :: 0 <= k < |moves| && ArmsFrom(moves, k)
  }

  predicate ArmsFrom(moves: seq<KillMove>, k: nat)
    requires k < |moves|
  {
    moves[k].ArmFor? && moves[k].reason != "" && Clear !in moves[k + 1..]
  }

  lemma {:induction false} LatchIff(armed: bool, moves: seq<KillMove>)
    ensures Latch(armed, moves) <==> InForce(armed, moves)
  {
    if moves != [] {
      var init, move := moves[..|moves| - 1], moves[|moves| - 1];
      LatchIff(armed, init);
      forall k | 0 <= k < |init|
        ensures ArmsFrom(moves, k) <==> ArmsFrom(init, k) && move != Clear
      {
        assert moves[k + 1..] == init[k + 1..] + [move];
      }
      assert moves == init + [move] && moves[|init| + 1..] == [];
      assert ArmsFrom(moves, |init|) <==> move.ArmFor? && move.reason != "";
    }
  }

  lemma {:induction false} LatchAppend(armed: bool, a: seq<KillMove>, b: seq<KillMove>)
    ensures Latch(armed, a + b) == Latch(Latch(armed, a), b)
  {
    if b == [] {
      assert a + b == a;
    } else {
      LatchAppend(armed, a, b[..|b| - 1]);
      assert (a + b)[..|a + b| - 1] == a + b[..|b| - 1];
    }
  }

  lemma {:induction false} MovesAppend(a: seq<Entry>, b: seq<Entry>)
    ensures MovesIn(a + b) == MovesIn(a) + MovesIn(b)
  {
    if b == [] {
      assert a + b == a;
    } else {
      var init, e := b[..|b| - 1], b[|b| - 1];
      MovesAppend(a, init);
      assert (a + b)[..|a + b| - 1] == a + init && (a + b)[|a + b| - 1] == e;
      assert MovesIn(a) + (MovesIn(init) + e.moves) == (MovesIn(a) + MovesIn(init)) + e.moves;
    }
  }

  lemma {:induction false} RecordsAppend(a: seq<Entry>, b: seq<Entry>)
    ensures RecordsIn(a + b) == RecordsIn(a) + RecordsIn(b)
  {
    if b == [] {
      assert a + b == a;
    } else {
      RecordsAppend(a, b[..|b| - 1]);
      assert (a + b)[..|a + b| - 1] == a + b[..|b| - 1];
    }
  }

  lemma {:induction false} LatchedAppend(armed: bool, a: seq<Entry>, b: seq<Entry>)
    requires Latched(armed, a) && Latched(Latch(armed, MovesIn(a)), b)
    ensures Latched(armed, a + b) && Latch(armed, MovesIn(a + b)) == Latch(Latch(armed, MovesIn(a)), MovesIn(b))
  {
    MovesAppend(a, b);
    LatchAppend(armed, MovesIn(a), MovesIn(b));
    if b == [] {
      assert a + b == a;
    } else {
      LatchedAppend(armed, a, b[..|b| - 1]);
      assert (a + b)[..|a + b| - 1] == a + b[..|b| - 1];
    }
  }

  lemma {:induction false} LatchedAt(armed: bool, es: seq<Entry>, j: nat)
    requires Latched(armed, es) && j < |es|
    ensures es[j].armed == Latch(armed, MovesIn(es[..j + 1]))
  {
    if j + 1 < |es| {
      LatchedAt(armed, es[..|es| - 1], j);
      assert es[..|es| - 1][..j + 1] == es[..j + 1];
    } else {
      assert es[..j + 1] == es;
    }
  }

  /** A candidate's gate sees the switch armed exactly when an arming is in force by then, and then the
      candidate is not submitted: from the moment of arming, nothing more passes the gate until a clearing. */
  lemma NothingAfterArming(c: RiskConfig, cfg: PipelineConfig, armed: bool, es: seq<Entry>, j: nat)
    requires EntriesOk(c, cfg, es) && Latched(armed, es) && j < |es|
    ensures es[j].armed <==> InForce(armed, MovesIn(es[..j + 1]))
    ensures InForce(armed, MovesIn(es[..j + 1])) ==> es[j].Dropped?
  {
    LatchedAt(armed, es, j);
    LatchIff(armed, MovesIn(es[..j + 1]));
    ArmedDrops(c, cfg, es[j]);
  }

  lemma ArmedDrops(c: RiskConfig, cfg: PipelineConfig, e: Entry)
    requires EntryOk(c, cfg, e)
    ensures e.armed ==> e.Dropped?
  {
    assert CHECK_ORDER[0] in CHECK_ORDER;
  }

  lemma {:induction false} NoClearNoRecords(c: RiskConfig, cfg: PipelineConfig, es: seq<Entry>)
    requires EntriesOk(c, cfg, es) && Latched(true, es) && Clear !in MovesIn(es)
    ensures RecordsIn(es) == []
  {
    if es != [] {
      var init := es[..|es| - 1];
      NoClearNoRecords(c, cfg, init);
      NothingAfterArming(c, cfg, true, es, |init|);
      assert es[..|es|] == es;
    }
  }

  /** A switch armed before the run and never cleared: no submission, equity fixed at starting cash. */
  lemma ArmedSubmitsNothing(m: Market, c: RiskConfig, cfg: PipelineConfig, cash: real, nextId: OrderId,
                            xs: seq<Rebalanced>)
    requires MarketOk(m) && After(m, c, cfg, StartState(cash, nextId), xs).Some?
    requires Latched(true, AllEntries(xs)) && Clear !in MovesIn(AllEntries(xs))
    ensures LogOf(xs).records == []
    ensures forall p :: p in After(m, c, cfg, StartState(cash, nextId), xs).value.curve ==> p.equity == cash
  {
    NoLookAhead(m, c, cfg, StartState(cash, nextId), xs);
    NoClearNoRecords(c, cfg, AllEntries(xs));
    EveryRunLogged(xs);
    EveryRunSound(m, c, cfg, cash, nextId, xs);
    FlatWithoutRecords(After(m, c, cfg, StartState(cash, nextId), xs).value, LogOf(xs), cash);
  }

  lemma FlatWithoutRecords(s: RunState, log: Log, start: real)
    requires Sound(s, log, start) && log.records == []
    ensures forall p :: p in s.curve ==> p.equity == start
  {
    forall i | 0 <= i < |s.curve|
      ensures s.curve[i].equity == start
    {
      assert PointOk(s.curve[i], start, log.applied[..log.bookedAt[i]]);
    }
  }
}
