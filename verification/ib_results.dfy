/** What a pipeline run reports, the history behind it, and how one outcome is booked. */
module IBResults {
  import opened Domain
  import opened EventQueue
  import opened Answers
  import opened Positions
  import opened Sums
  import opened Ledgers
  import opened Sizing
  import opened Risk
  import opened IBBrokerModel
  import opened Draining
  import opened OrderEvents

  datatype PipelineConfig = PipelineConfig(
    strategyId: string, navSlice: real, artefacts: seq<Artefact>,
    orderType: OrderType, typeBySymbol: map<string, OrderType>, offsetBps: real)

  // ---- Results -------------------------------------------------------------

  datatype EquityPoint = EquityPoint(
    time: int, cash: real, positions: map<string, real>, marks: map<string, real>, equity: real)

  datatype RunState = RunState(
    ledger: Ledger,
    submitted: nat, accepted: nat, fills: nat, canceled: nat, rejected: nat,
    submittedBySymbol: map<string, nat>, fillsBySymbol: map<string, nat>,
    breaches: seq<Breach>, curve: seq<EquityPoint>, nextId: OrderId)

  /** One submitted order, for the record: what was approved, on what, and what was read for it. */
  datatype Record = Record(desired: Order, order: Order, inputs: RiskInputs, now: int, read: seq<OrderEvent>)

  /** The history behind a result: fills booked, orders submitted, fills booked by each equity point. */
  datatype Log = Log(applied: seq<Fill>, records: seq<Record>, bookedAt: seq<nat>)

  const NO_LOG := Log([], [], [])

  function CountOf(m: map<string, nat>, sym: string): nat {
    if sym in m then m[sym] else 0
  }

  function Bump(m: map<string, nat>, sym: string): map<string, nat> {
    m[sym := CountOf(m, sym) + 1]
  }

  function AsReals(m: map<string, nat>): map<string, real> {
    map s | s in m :: m[s] as real
  }

  /** The sum of the per-symbol counts. */
  ghost function Total(m: map<string, nat>): real {
    MapSum(AsReals(m))
  }

  lemma BumpTotal(m: map<string, nat>, sym: string)
    ensures Total(Bump(m, sym)) == Total(m) + 1.0
    ensures forall x :: CountOf(Bump(m, sym), x) == CountOf(m, x) + if x == sym then 1 else 0
  {
    assert AsReals(Bump(m, sym)) == AsReals(m)[sym := CountOf(m, sym) as real + 1.0];
    MapSumUpdate(AsReals(m), sym, CountOf(m, sym) as real + 1.0);
  }

  /** Some event says the order was accepted. */
  predicate WasAccepted(read: seq<OrderEvent>) {
    exists e :: e in read && e.kind in {EvAccepted, EvPartialFill, EvFilled}
  }

  predicate EndsIn(read: seq<OrderEvent>, k: EventKind) {
    read != [] && read[|read| - 1].kind == k
  }

  function Acceptances(records: seq<Record>): nat {
    if records == [] then 0
    else Acceptances(records[..|records| - 1]) + if WasAccepted(records[|records| - 1].read) then 1 else 0
  }

  /** How many orders' events, as far as read, end in this kind. */
  function EndingIn(records: seq<Record>, k: EventKind): nat {
    if records == [] then 0
    else EndingIn(records[..|records| - 1], k) + if EndsIn(records[|records| - 1].read, k) then 1 else 0
  }

  /** How many end in neither FILLED nor REJECTED. */
  function Unfilled(records: seq<Record>): nat {
    if records == [] then 0
    else
      var read := records[|records| - 1].read;
      Unfilled(records[..|records| - 1]) + if EndsIn(read, EvFilled) || EndsIn(read, EvRejected) then 0 else 1
  }

  function OrdersFor(records: seq<Record>, sym: string): nat {
    if records == [] then 0
    else
      OrdersFor(records[..|records| - 1], sym) + if records[|records| - 1].order.instrument.symbol == sym then 1 else 0
  }

  function FilledFor(records: seq<Record>, sym: string): nat {
    if records == [] then 0
    else
      var r := records[|records| - 1];
      FilledFor(records[..|records| - 1], sym)
      + if EndsIn(r.read, EvFilled) && r.order.instrument.symbol == sym then 1 else 0
  }

  /** What a record adds to each count. */
  lemma CountsSnoc(records: seq<Record>, r: Record)
    ensures Acceptances(records + [r]) == Acceptances(records) + if WasAccepted(r.read) then 1 else 0
    ensures forall k :: EndingIn(records + [r], k) == EndingIn(records, k) + if EndsIn(r.read, k) then 1 else 0
    ensures Unfilled(records + [r]) ==
            Unfilled(records) + if EndsIn(r.read, EvFilled) || EndsIn(r.read, EvRejected) then 0 else 1
    ensures forall sym :: OrdersFor(records + [r], sym) ==
                          OrdersFor(records, sym) + if r.order.instrument.symbol == sym then 1 else 0
    ensures forall sym :: FilledFor(records + [r], sym) ==
                          FilledFor(records, sym)
                          + if EndsIn(r.read, EvFilled) && r.order.instrument.symbol == sym then 1 else 0
  {
    assert (records + [r])[..|records|] == records;
  }

  /** Every counter counts its outcome by the last event read, every order has one outcome, only accepted orders
      fill, and the per-symbol counts add up. */
  ghost predicate CountsOk(s: RunState, log: Log) {
    && |log.records| == s.submitted == s.fills + s.canceled + s.rejected
    && |log.applied| == s.fills <= s.accepted <= s.submitted
    && s.accepted == Acceptances(log.records) && s.rejected == EndingIn(log.records, EvRejected)
    && s.fills == EndingIn(log.records, EvFilled) && s.canceled == Unfilled(log.records)
    && Total(s.submittedBySymbol) == s.submitted as real && Total(s.fillsBySymbol) == s.fills as real
    && SymbolsOk(s, log)
  }

  ghost predicate SymbolsOk(s: RunState, log: Log) {
    forall sym ::
      && CountOf(s.submittedBySymbol, sym) == OrdersFor(log.records, sym)
      && CountOf(s.fillsBySymbol, sym) == FilledFor(log.records, sym) <= OrdersFor(log.records, sym)
  }

  function PartsOf(records: seq<Record>): seq<seq<OrderEvent>> {
    seq(|records|, i requires 0 <= i < |records| => records[i].read)
  }

  function IdsOf(records: seq<Record>): seq<OrderId> {
    seq(|records|, i requires 0 <= i < |records| => records[i].order.id)
  }

  function BookedIn(records: seq<Record>): seq<Fill> {
    BookedOf(PartsOf(records))
  }

  /** What was read for each order is the start of what the broker queued for it. */
  ghost predicate ReadsOk(records: seq<Record>, puts: seq<QueueItem>) {
    forall r :: r in records ==> r.read <= Own(puts, r.order.id)
  }

  /** Equity of a point: starting cash plus the gains, at its marks, of the fills booked by then. */
  ghost predicate PointOk(p: EquityPoint, start: real, fills: seq<Fill>) {
    && p.equity == start + TotalGain(fills, p.marks)
    && forall sym :: (if sym in p.positions then p.positions[sym] else 0.0) == Traded(fills, sym)
  }

  ghost predicate CurveOk(s: RunState, log: Log, start: real) {
    && |log.bookedAt| == |s.curve|
    && forall i :: 0 <= i < |s.curve| ==>
         log.bookedAt[i] <= |log.applied| && PointOk(s.curve[i], start, log.applied[..log.bookedAt[i]])
  }

  ghost predicate BooksOk(s: RunState, log: Log, start: real) {
    Conserved(s.ledger, start, log.applied) && log.applied == BookedIn(log.records)
  }

  ghost predicate Sound(s: RunState, log: Log, start: real) {
    CountsOk(s, log) && CurveOk(s, log, start) && BooksOk(s, log, start)
  }

  datatype RunError =
    | SizerFailed(sizing: SizerError)
    | OrderFailed
    | SubmitFailed(submission: SubmitError)
    | BookingFailed(booking: ApplyError)

  // ---- Booking one outcome -------------------------------------------------

  function Extend(log: Log, record: Record): Log {
    log.(applied := log.applied + Booked(record.read), records := log.records + [record])
  }

  function CountSubmitted(s: RunState, sym: string, accepted: bool): RunState {
    s.(submitted := s.submitted + 1,
       submittedBySymbol := Bump(s.submittedBySymbol, sym),
       accepted := s.accepted + if accepted then 1 else 0)
  }

  /** Neither filled nor rejected counts as cancelled. */
  function CountUnfilled(s: RunState, rejected: bool): RunState {
    if rejected then s.(rejected := s.rejected + 1) else s.(canceled := s.canceled + 1)
  }

  function CountFilled(s: RunState, sym: string, l: Ledger): RunState {
    s.(ledger := l, fills := s.fills + 1, fillsBySymbol := Bump(s.fillsBySymbol, sym))
  }

  lemma FilledKeeps(s: RunState, log: Log, start: real, record: Record, f: Fill, l: Ledger, strategyId: string,
                    sym: string)
    requires Sound(s, log, start) && Booked(record.read) == [f] && Settle(s.ledger, f, strategyId, record.now) == Ok(l)
    requires sym == record.order.instrument.symbol
    ensures Sound(CountFilled(CountSubmitted(s, sym, true), sym, l), Extend(log, record), start)
  {
    var s' := CountFilled(CountSubmitted(s, sym, true), sym, l);
    BookedInSnoc(log.records, record);
    ConservedSettle(s.ledger, start, log.applied, f, strategyId, record.now);
    FilledCounts(s, log, record, f, l, sym);
    CurveExtends(s, s', log, Extend(log, record), start);
  }

  lemma FilledCounts(s: RunState, log: Log, record: Record, f: Fill, l: Ledger, sym: string)
    requires CountsOk(s, log) && Booked(record.read) == [f] && sym == record.order.instrument.symbol
    ensures CountsOk(CountFilled(CountSubmitted(s, sym, true), sym, l), Extend(log, record))
  {
    BumpTotal(s.submittedBySymbol, sym);
    BumpTotal(s.fillsBySymbol, sym);
    CountsSnoc(log.records, record);
    OutcomeByKind(record.read);
  }

  lemma UnfilledKeeps(s: RunState, log: Log, start: real, record: Record, accepted: bool, rejected: bool, sym: string)
    requires Sound(s, log, start) && Booked(record.read) == [] && sym == record.order.instrument.symbol
    requires OwnFills(record)
    requires accepted == AnswerFor(record.read).accepted && rejected == (AnswerFor(record.read).state == Rejected)
    ensures Sound(CountUnfilled(CountSubmitted(s, sym, accepted), rejected), Extend(log, record), start)
  {
    BookedInSnoc(log.records, record);
    assert Extend(log, record).applied == log.applied;
    UnfilledCounts(s, log, record, accepted, rejected, sym);
    CurveExtends(s, CountUnfilled(CountSubmitted(s, sym, accepted), rejected), log, Extend(log, record), start);
  }

  lemma UnfilledCounts(s: RunState, log: Log, record: Record, accepted: bool, rejected: bool, sym: string)
    requires CountsOk(s, log) && Booked(record.read) == [] && sym == record.order.instrument.symbol
    requires OwnFills(record)
    requires accepted == AnswerFor(record.read).accepted && rejected == (AnswerFor(record.read).state == Rejected)
    ensures CountsOk(CountUnfilled(CountSubmitted(s, sym, accepted), rejected), Extend(log, record))
  {
    BumpTotal(s.submittedBySymbol, sym);
    CountsSnoc(log.records, record);
    OutcomeByKind(record.read);
  }

  /** What is booked and counted, by the kinds of the events read. */
  lemma OutcomeByKind(read: seq<OrderEvent>)
    ensures AnswerFor(read).accepted <==> WasAccepted(read)
    ensures AnswerFor(read).state == Rejected <==> EndsIn(read, EvRejected)
    ensures Booked(read) != [] ==> EndsIn(read, EvFilled)
    ensures EndsIn(read, EvFilled) && read[|read| - 1].fill.Some? ==> Booked(read) != []
  {
    AnswerReports(read);
    if EndsIn(read, EvFilled) && read[|read| - 1].fill.Some? {
      assert Fills(read[|read| - 1]) && read[|read| - 1] in read;
    }
  }

  /** Count the submission, then book the outcome: only a FILLED answer reaches the ledger, and only
      its deciding fill; anything else but a rejection counts as an engine cancel. */
  function BookResult(s: RunState, strategyId: string, record: Record): Result<RunState, RunError> {
    var a, sym := AnswerFor(record.read), record.order.instrument.symbol;
    var s1 := CountSubmitted(s, sym, a.accepted);
    if a.state == Filled && a.fill.Some? then
      match Settle(s1.ledger, a.fill.value, strategyId, record.now)
      case Err(e) => Err(BookingFailed(e))
      case Ok(l) => Ok(CountFilled(s1, a.fill.value.instrument.symbol, l))
    else Ok(CountUnfilled(s1, a.state == Rejected))
  }

  /** Fill events carry a fill, in the order's instrument. */
  ghost predicate OwnFills(record: Record) {
    && (forall f :: f in FillsIn(record.read) ==> f.instrument == record.order.instrument)
    && (forall e :: e in record.read && IsFillKind(e.kind) ==> e.fill.Some?)
  }

  lemma BookKeeps(s: RunState, log: Log, start: real, strategyId: string, record: Record)
    requires Sound(s, log, start) && OwnFills(record) && BookResult(s, strategyId, record).Ok?
    ensures Sound(BookResult(s, strategyId, record).value, Extend(log, record), start)
  {
    var a, sym := AnswerFor(record.read), record.order.instrument.symbol;
    LastFillIsOwn(record.read);
    FilledWasAccepted(record.read);
    if a.state == Filled && a.fill.Some? {
      assert Booked(record.read) == [a.fill.value];
      FilledKeeps(s, log, start, record, a.fill.value, Settle(s.ledger, a.fill.value, strategyId, record.now).value,
                  strategyId, sym);
    } else {
      UnfilledKeeps(s, log, start, record, a.accepted, a.state == Rejected, sym);
    }
  }

  ghost predicate Catalogued(inst: Instrument, named: map<string, Instrument>) {
    inst.symbol in named && named[inst.symbol] == inst
  }

  /** Every position is this strategy's, in the instrument its symbol stands for. */
  ghost predicate OwnBooks(l: Ledger, strategyId: string, named: map<string, Instrument>) {
    forall sym :: sym in l.positions ==>
      sym in named && l.positions[sym].strategyId == strategyId && l.positions[sym].instrument == named[sym]
  }

  /** On such books `apply_fill` never raises, and they stay such books. */
  lemma BookingNeverFails(s: RunState, strategyId: string, record: Record, named: map<string, Instrument>)
    requires OwnBooks(s.ledger, strategyId, named) && OwnFills(record) && Catalogued(record.order.instrument, named)
    ensures BookResult(s, strategyId, record).Ok?
    ensures OwnBooks(BookResult(s, strategyId, record).value.ledger, strategyId, named)
  {
    LastFillIsOwn(record.read);
  }

  method BookOutcome(s: RunState, strategyId: string, order: Order, now: int, answer: Answer, ghost record: Record)
    returns (r: Result<RunState, RunError>)
    requires answer == AnswerFor(record.read) && record.order == order && record.now == now
    ensures r == BookResult(s, strategyId, record)
  {
    var s1 := CountSubmitted(s, order.instrument.symbol, answer.accepted);
    if answer.state == Filled && answer.fill.Some? {
      var fill := answer.fill.value;
      var settled := Settle(s1.ledger, fill, strategyId, now);
      if settled.Err? {
        return Err(BookingFailed(settled.error));
      }
      return Ok(CountFilled(s1, fill.instrument.symbol, settled.value));
    }
    if answer.state == Rejected {
      return Ok(s1.(rejected := s1.rejected + 1));
    }
    r := Ok(s1.(canceled := s1.canceled + 1));
  }

  lemma BookedInSnoc(records: seq<Record>, record: Record)
    ensures BookedIn(records + [record]) == BookedIn(records) + Booked(record.read)
  {
    var parts := PartsOf(records + [record]);
    assert parts == PartsOf(records) + [record.read] && parts[..|records|] == PartsOf(records);
  }

  lemma LastFillIsOwn(read: seq<OrderEvent>)
    ensures AnswerFor(read).fill.Some? ==> AnswerFor(read).fill.value in FillsIn(read)
  {
  }

  lemma FilledWasAccepted(read: seq<OrderEvent>)
    ensures AnswerFor(read).state == Filled ==> AnswerFor(read).accepted
    ensures Booked(read) != [] ==> AnswerFor(read).state == Filled
  {
    if read != [] {
      assert read[|read| - 1] in read;
    }
  }

  lemma CurveExtends(s: RunState, s': RunState, log: Log, log': Log, start: real)
    requires CurveOk(s, log, start) && s'.curve == s.curve
    requires log'.bookedAt == log.bookedAt && log.applied <= log'.applied
    ensures CurveOk(s', log', start)
  {
    assert forall n :: 0 <= n <= |log.applied| ==> log'.applied[..n] == log.applied[..n];
  }

  // ---- Marking equity ------------------------------------------------------

  ghost function PointFor(l: Ledger, marks: map<string, real>, t: int): EquityPoint {
    EquityPoint(t, l.cash, map sym | sym in l.positions :: l.positions[sym].quantity, marks, Equity(l, marks))
  }

  ghost function Close(s: RunState, marks: map<string, real>, t: int): RunState {
    s.(curve := s.curve + [PointFor(s.ledger, marks, t)])
  }

  /** Append the equity point of this close. */
  method MarkEquity(s: RunState, marks: map<string, real>, t: int) returns (s': RunState)
    ensures s' == Close(s, marks, t)
  {
    var equity := ComputeEquity(s.ledger, marks);
    var held := map sym | sym in s.ledger.positions :: s.ledger.positions[sym].quantity;
    s' := s.(curve := s.curve + [EquityPoint(t, s.ledger.cash, held, marks, equity)]);
  }

  lemma PointSound(s: RunState, log: Log, start: real, marks: map<string, real>, t: int)
    requires BooksOk(s, log, start)
    ensures PointOk(PointFor(s.ledger, marks, t), start, log.applied)
  {
    var p := PointFor(s.ledger, marks, t);
    forall sym
      ensures (if sym in p.positions then p.positions[sym] else 0.0) == Traded(log.applied, sym)
    {
      assert Qty(Held(s.ledger, sym)) == Traded(log.applied, sym);
    }
  }

  lemma CloseKeeps(s: RunState, log: Log, start: real, marks: map<string, real>, t: int)
    requires Sound(s, log, start)
    ensures Sound(Close(s, marks, t), log.(bookedAt := log.bookedAt + [|log.applied|]), start)
  {
    PointSound(s, log, start, marks, t);
    assert log.applied[..|log.applied|] == log.applied;
  }

  lemma SoundAnyId(s: RunState, nextId: OrderId, log: Log, start: real)
    requires Sound(s, log, start)
    ensures Sound(s.(nextId := nextId), log, start)
  {
  }

  lemma SoundAnyBreaches(s: RunState, breaches: seq<Breach>, log: Log, start: real)
    requires Sound(s, log, start)
    ensures Sound(s.(breaches := breaches), log, start)
  {
  }
}
