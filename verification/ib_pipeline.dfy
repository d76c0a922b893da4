/** The multi-instrument rebalance pipeline: size, gate, submit, drain, book, mark. */
module IBPipeline {
  import opened Domain
  import opened EventQueue
  import opened Answers
  import opened PriceGrid
  import opened IBBrokerModel
  import opened Submissions
  import opened IBBrokerAdapter
  import opened Ledgers
  import opened Sizing
  import opened Risk
  import opened Draining
  import opened OrderEvents
  import opened IBPlacement
  import opened IBResults
  import opened IBRounds
  import opened IBRunSpec

  // ---- The broker between two orders of a run ---------------------------------

  /** Everything on the wire was there before the run or is a recorded submission, its prices snapped. */
  ghost predicate WireRecorded(before: seq<Placement>, wire: seq<Placement>, records: seq<Record>,
                               policy: RoundingPolicy) {
    forall p :: p in wire ==> p in before || exists r :: r in records && PlacedFor(r.order, p, policy)
  }

  ghost predicate Recorded(b: Broker, before: seq<Placement>, records: seq<Record>, policy: RoundingPolicy) {
    WireRecorded(before, b.wire, records, policy) && ReadsOk(records, b.puts)
  }

  /** What a run starts from: the wire before it, and the instrument each symbol stands for. */
  datatype Context = Context(before: seq<Placement>, named: map<string, Instrument>)

  /** Ready for the next order: everything so far is recorded, and the books are this strategy's own. */
  ghost predicate Ready(broker: IBBroker, s: RunState, cfg: PipelineConfig, cx: Context, records: seq<Record>)
    reads broker
  {
    && broker.Valid() && Idle(broker.history, s.nextId, broker.policy)
    && Recorded(broker.View(), cx.before, records, broker.policy) && OwnBooks(s.ledger, cfg.strategyId, cx.named)
  }

  /** Also when the run raised: nothing unrecorded is on the wire. */
  ghost predicate Accounted(broker: IBBroker, cx: Context, records: seq<Record>)
    reads broker
  {
    broker.Valid() && Recorded(broker.View(), cx.before, records, broker.policy)
  }

  lemma RecordsGrow(b: Broker, b': Broker, records: seq<Record>, record: Record, before: seq<Placement>,
                    policy: RoundingPolicy)
    requires SubmittedOnly(b, record.order, b', policy) && record.read <= Own(b'.puts, record.order.id)
    requires Recorded(b, before, records, policy)
    ensures Recorded(b', before, records + [record], policy)
  {
    var all := records + [record];
    assert record in all && forall r :: r in records ==> r in all;
    assert forall r :: r in all ==> r in records || r == record;
    forall r | r in all
      ensures r.read <= Own(b'.puts, r.order.id)
    {
      OwnGrows(b.puts, b'.puts, r.order.id);
    }
  }

  // ---- One candidate order ---------------------------------------------------

  lemma {:induction false} BlocksAppend(a: seq<Breach>, b: seq<Breach>)
    ensures Blocks(a + b) == Blocks(a) + Blocks(b)
  {
    if b == [] {
      assert a + b == a;
    } else {
      BlocksAppend(a, b[..|b| - 1]);
      assert (a + b)[..|a + b| - 1] == a + b[..|b| - 1];
    }
  }

  lemma {:induction false} NoBlocks(b: seq<Breach>)
    requires forall i :: 0 <= i < |b| ==> b[i].severity != Block
    ensures Blocks(b) == 0
  {
    if b != [] {
      NoBlocks(b[..|b| - 1]);
    }
  }

  /** Exactly the candidates that pass are let through; a dropped one leaves one block. */
  method Gate(engine: RiskEngine, k: Candidate) returns (approved: bool, breaches: seq<Breach>)
    requires k.desired.orderType == Mkt
    ensures approved <==> Pass(engine.config, engine.killSwitch.armed, k)
    ensures Blocks(breaches) == (if approved then 0 else 1) && forall b :: b in breaches ==> b.check != RC10
  {
    var order;
    order, breaches := engine.Approve(k.desired, k.inputs, k.now);
    assert SanePrice(engine.config, k.desired, k.inputs);
    assert CHECK_ORDER[4] == RC10 && forall j :: 0 <= j < 4 ==> CHECK_ORDER[j] != RC10;
    if order.None? {
      NoBlocks(breaches[..|breaches| - 1]);
    } else {
      NoBlocks(breaches);
    }
    approved := order.Some?;
  }

  /** The operator's moves on the kill switch. */
  method Operate(sw: KillSwitch, moves: seq<KillMove>)
    modifies sw
    ensures sw.armed == Latch(old(sw.armed), moves)
  {
    for i := 0 to |moves|
      invariant sw.armed == Latch(old(sw.armed), moves[..i])
    {
      assert moves[..i + 1][..i] == moves[..i];
      match moves[i] {
        case ArmFor(reason) => var _ := sw.Arm(reason);
        case Clear => sw.Clear();
      }
    }
    assert moves[..|moves|] == moves;
  }

  /** What the world does around a run: around each submitted order, and, between any two gates, to the
      kill switch. */
  datatype World = World(script: nat -> OrderScript, operator: nat -> seq<KillMove>)

  ghost predicate WorldOk(w: World) {
    forall n :: EnvScript(w.script(n))
  }

  /** Grows with every candidate, so each has its own operator moves. */
  function Gates(s: RunState): nat {
    s.submitted + |s.breaches|
  }

  /** One candidate: gate it, and trade it if approved. */
  method ProcessOrder(broker: IBBroker, engine: RiskEngine, cfg: PipelineConfig, s: RunState, desired: Order,
                      bars: map<string, Bar>, marks: map<string, real>, t: int, w: World,
                      ghost cx: Context, ghost records: seq<Record>)
    returns (r: Result<RunState, RunError>, ghost e: Entry)
    requires Ready(broker, s, cfg, cx, records) && WorldOk(w)
    requires desired.orderType == Mkt && desired.instrument.symbol in bars && marks == MarksOf(bars)
    requires Catalogued(desired.instrument, cx.named)
    modifies broker, engine.killSwitch
    ensures r.Ok? ==> Enter(s, cfg.strategyId, e) == r && e.k == CandidateFor(desired, bars, cfg, t)
    ensures r.Ok? ==> EntryOk(engine.config, cfg, e)
    ensures r.Ok? ==> engine.killSwitch.armed == e.armed == Latch(old(engine.killSwitch.armed), e.moves)
    ensures r.Ok? ==> Ready(broker, r.value, cfg, cx, if e.Traded? then records + [e.record] else records)
    ensures r.Err? ==> Accounted(broker, cx, records) && !r.error.BookingFailed?
  {
    var symbol := desired.instrument.symbol;
    var k := Candidate(desired, RiskInputs(Some(bars[symbol]), true, cfg.artefacts, Some(marks[symbol])), t);
    assert k == CandidateFor(desired, bars, cfg, t);
    var moves := w.operator(Gates(s));
    Operate(engine.killSwitch, moves);
    ghost var armed := engine.killSwitch.armed;
    var approved, breaches := Gate(engine, k);
    var s1 := s.(breaches := s.breaches + breaches);
    e := Dropped(k, moves, armed, breaches);
    if !approved {
      return Ok(s1), e;
    }
    var traded, record := TradeApproved(broker, cfg, s1, bars[symbol], k, w.script(s.submitted), cx, records);
    e := Traded(k, moves, armed, breaches, record);
    r := traded;
  }

  /** Build the approved order, submit it and follow it, and book what came of it. */
  method TradeApproved(broker: IBBroker, cfg: PipelineConfig, s: RunState, bar: Bar, k: Candidate, sc: OrderScript,
                       ghost cx: Context, ghost records: seq<Record>)
    returns (r: Result<RunState, RunError>, ghost record: Record)
    requires Ready(broker, s, cfg, cx, records) && EnvScript(sc) && k.inputs.lastBar == Some(bar)
    requires Catalogued(k.desired.instrument, cx.named)
    modifies broker
    ensures r.Ok? ==> RecordOk(cfg, k, record) && BookResult(s, cfg.strategyId, record).Ok?
    ensures r.Ok? ==> r.value == BookResult(s, cfg.strategyId, record).value.(nextId := record.order.id + 1)
    ensures r.Ok? ==> Ready(broker, r.value, cfg, cx, records + [record])
    ensures r.Err? ==> Accounted(broker, cx, records) && !r.error.BookingFailed?
  {
    record := Record(k.desired, k.desired, k.inputs, k.now, []);
    var built := IbOrder(k.desired, bar, TypeFor(cfg, k.desired.instrument.symbol), cfg.offsetBps, s.nextId);
    if built.Err? {
      return Err(OrderFailed), record;
    }
    var order := built.value;
    ghost var b := broker.View();
    var placed, own := PlaceAndDrain(broker, order, sc);
    record := Record(k.desired, order, k.inputs, k.now, own);
    if placed.Err? {
      StillRecorded(b, broker.View(), records, cx.before, broker.policy);
      return Err(SubmitFailed(placed.error)), record;
    }
    TradeRecorded(b, broker.View(), cfg, k, record, records, cx.before, broker.policy);
    BookingNeverFails(s, cfg.strategyId, record, cx.named);
    var booked := BookOutcome(s, cfg.strategyId, order, k.now, placed.value, record);
    r := Ok(booked.value.(nextId := order.id + 1));
  }

  /** A followed order makes a right record, and the records still account for the wire. */
  lemma TradeRecorded(b: Broker, b': Broker, cfg: PipelineConfig, k: Candidate, r: Record, records: seq<Record>,
                      before: seq<Placement>, policy: RoundingPolicy)
    requires k == Candidate(r.desired, r.inputs, r.now) && k.inputs.lastBar.Some?
    requires IbOrder(k.desired, k.inputs.lastBar.value, TypeFor(cfg, k.desired.instrument.symbol), cfg.offsetBps,
                     r.order.id) == Ok(r.order)
    requires SubmittedOnly(b, r.order, b', policy) && r.read <= Own(b'.puts, r.order.id)
    requires forall e :: e in r.read ==> FillOfOrder(e, r.order) && (IsFillKind(e.kind) <==> e.fill.Some?)
    requires Recorded(b, before, records, policy)
    ensures RecordOk(cfg, k, r) && Recorded(b', before, records + [r], policy)
  {
    ReadFillsMatch(r.read, r.order);
    RecordsGrow(b, b', records, r, before, policy);
  }

  lemma StillRecorded(b: Broker, b': Broker, records: seq<Record>, before: seq<Placement>, policy: RoundingPolicy)
    requires Recorded(b, before, records, policy) && b'.wire == b.wire && b.puts <= b'.puts
    ensures Recorded(b', before, records, policy)
  {
    forall r | r in records
      ensures r.read <= Own(b'.puts, r.order.id)
    {
      OwnGrows(b.puts, b'.puts, r.order.id);
    }
  }

  lemma {:induction false} ReadFillsMatch(own: seq<OrderEvent>, o: Order)
    requires forall e :: e in own ==> FillOfOrder(e, o)
    ensures forall f :: f in FillsIn(own) ==> f.instrument == o.instrument
  {
    if own != [] {
      ReadFillsMatch(own[..|own| - 1], o);
      assert own[|own| - 1] in own;
    }
  }

  /** What the sizer made can come to the gate: market orders, on bars, in the run's instruments. */
  ghost predicate Tradable(orders: seq<Order>, bars: map<string, Bar>, named: map<string, Instrument>) {
    forall o :: o in orders ==>
      o.orderType == Mkt && o.instrument.symbol in bars && Catalogued(o.instrument, named)
  }

  /** Run one candidate order after another through gate, broker and books. */
  method ProcessOrders(broker: IBBroker, engine: RiskEngine, cfg: PipelineConfig, s: RunState, orders: seq<Order>,
                       bars: map<string, Bar>, marks: map<string, real>, t: int, w: World,
                       ghost cx: Context, ghost records: seq<Record>)
    returns (r: Result<RunState, RunError>, ghost es: seq<Entry>)
    requires Ready(broker, s, cfg, cx, records) && WorldOk(w)
    requires Tradable(orders, bars, cx.named) && marks == MarksOf(bars)
    modifies broker, engine.killSwitch
    ensures EntriesOk(engine.config, cfg, es) && Latched(old(engine.killSwitch.armed), es)
    ensures r.Ok? ==> engine.killSwitch.armed == Latch(old(engine.killSwitch.armed), MovesIn(es))
    ensures r.Ok? ==> EnterAll(s, cfg.strategyId, es) == r && CandidatesIn(es) == CandidatesOf(orders, bars, cfg, t)
    ensures r.Ok? ==> Ready(broker, r.value, cfg, cx, records + RecordsIn(es))
    ensures r.Err? ==> Accounted(broker, cx, records + RecordsIn(es)) && !r.error.BookingFailed?
  {
    es := [];
    var cur := s;
    ghost var armed := engine.killSwitch.armed;
    assert records + [] == records;
    for n := 0 to |orders|
      invariant Entered(s, cfg, engine.config, orders[..n], bars, t, es, cur, armed, engine.killSwitch.armed)
      invariant Ready(broker, cur, cfg, cx, records + RecordsIn(es))
    {
      assert orders[n] in orders && orders[..n + 1] == orders[..n] + [orders[n]];
      var processed, e := ProcessOrder(broker, engine, cfg, cur, orders[n], bars, marks, t, w, cx,
                                       records + RecordsIn(es));
      if processed.Err? {
        return processed, es;
      }
      EnteredNext(s, cfg, engine.config, orders[..n], orders[n], bars, t, es, e, cur, processed.value, armed);
      RecordsNext(records, es, e);
      cur, es := processed.value, es + [e];
    }
    assert orders[..|orders|] == orders;
    r := Ok(cur);
  }

  /** `es` is what became of `orders`, leading from `s` to `cur` and leaving the kill switch so. */
  ghost predicate Entered(s: RunState, cfg: PipelineConfig, c: RiskConfig, orders: seq<Order>, bars: map<string, Bar>,
                          t: int, es: seq<Entry>, cur: RunState, armed: bool, armedNow: bool) {
    && EnterAll(s, cfg.strategyId, es) == Ok(cur) && EntriesOk(c, cfg, es)
    && CandidatesIn(es) == CandidatesOf(orders, bars, cfg, t)
    && Latched(armed, es) && armedNow == Latch(armed, MovesIn(es))
  }

  lemma EnteredNext(s: RunState, cfg: PipelineConfig, c: RiskConfig, orders: seq<Order>, o: Order,
                    bars: map<string, Bar>, t: int, es: seq<Entry>, e: Entry, cur: RunState, next: RunState,
                    armed: bool)
    requires Entered(s, cfg, c, orders, bars, t, es, cur, armed, Latch(armed, MovesIn(es)))
    requires Enter(cur, cfg.strategyId, e) == Ok(next) && EntryOk(c, cfg, e) && e.k == CandidateFor(o, bars, cfg, t)
    requires e.armed == Latch(Latch(armed, MovesIn(es)), e.moves)
    ensures Entered(s, cfg, c, orders + [o], bars, t, es + [e], next, armed, e.armed)
  {
    EnterSnoc(s, cfg.strategyId, es, e);
    LatchedNext(armed, es, e);
    assert CandidatesOf(orders + [o], bars, cfg, t)
        == CandidatesOf(orders, bars, cfg, t) + [CandidateFor(o, bars, cfg, t)];
    assert forall x :: x in es + [e] ==> x in es || x == e;
  }

  lemma RecordsNext(records: seq<Record>, es: seq<Entry>, e: Entry)
    ensures records + RecordsIn(es + [e]) ==
            if e.Traded? then records + RecordsIn(es) + [e.record] else records + RecordsIn(es)
  {
    assert (es + [e])[..|es|] == es;
  }

  lemma LatchedNext(armed: bool, es: seq<Entry>, e: Entry)
    requires Latched(armed, es) && e.armed == Latch(Latch(armed, MovesIn(es)), e.moves)
    ensures Latched(armed, es + [e]) && e.armed == Latch(armed, MovesIn(es + [e]))
  {
    assert [e][..1] == [e] && [e][..0] == [] && MovesIn([e]) == [] + e.moves == e.moves;
    LatchedAppend(armed, es, [e]);
  }

  // ---- One rebalance ---------------------------------------------------------

  /** One legal rebalance, from these books and switch to those. */
  ghost predicate Stepped(m: Market, c: RiskConfig, cfg: PipelineConfig, s: RunState, armed: bool, x: Rebalanced,
                          s': RunState, armed': bool)
    requires MarketOk(m)
  {
    && RoundLegal(m, c, cfg, s, x) && AfterRound(s, cfg, x) == Ok(s')
    && Latched(armed, x.entries) && armed' == Latch(armed, MovesIn(x.entries))
  }

  /** Size, gate, trade, book, mark: one rebalance. */
  method Rebalance(broker: IBBroker, engine: RiskEngine, cfg: PipelineConfig, s: RunState, m: Market,
                   bars: map<string, Bar>, t: int, w: World, ghost cx: Context, ghost records: seq<Record>)
    returns (r: Result<RunState, RunError>, ghost x: Rebalanced)
    requires Ready(broker, s, cfg, cx, records) && WorldOk(w)
    requires MarketOk(m) && t in m.weights && BarsRight(bars, m.instruments, m.tapes, t)
    requires (forall i :: i in m.instruments ==> i.symbol in bars) && cx.named == BySymbol(m.instruments)
    modifies broker, engine.killSwitch
    ensures EntriesOk(engine.config, cfg, x.entries) && Latched(old(engine.killSwitch.armed), x.entries)
    ensures r.Ok? ==> x.rd.now == t
    ensures r.Ok? ==>
              Stepped(m, engine.config, cfg, s, old(engine.killSwitch.armed), x, r.value, engine.killSwitch.armed)
    ensures r.Ok? ==> Ready(broker, r.value, cfg, cx, records + RecordsIn(x.entries))
    ensures r.Err? ==> Accounted(broker, cx, records + RecordsIn(x.entries)) && !r.error.BookingFailed?
  {
    var sized, rd := SizeRound(s, m, bars, t, cfg);
    x := Rebalanced(rd, []);
    assert records + [] == records;
    if sized.Err? {
      return Err(SizerFailed(sized.error)), x;
    }
    r, x := TradeRound(broker, engine, cfg, s, sized.value, bars, t, w, rd, cx, records);
  }

  /** Trade the sized orders, then mark equity at the same bars. */
  method TradeRound(broker: IBBroker, engine: RiskEngine, cfg: PipelineConfig, s: RunState, orders: seq<Order>,
                    bars: map<string, Bar>, t: int, w: World, ghost rd: Round,
                    ghost cx: Context, ghost records: seq<Record>)
    returns (r: Result<RunState, RunError>, ghost x: Rebalanced)
    requires Ready(broker, s, cfg, cx, records) && WorldOk(w) && Tradable(orders, bars, cx.named)
    requires Resolvable(rd.sizing) && Sized(rd.sizing, rd.firstId) == Ok(orders)
    requires rd.bars == bars && rd.now == t
    modifies broker, engine.killSwitch
    ensures x.rd == rd
    ensures EntriesOk(engine.config, cfg, x.entries) && Latched(old(engine.killSwitch.armed), x.entries)
    ensures r.Ok? ==> engine.killSwitch.armed == Latch(old(engine.killSwitch.armed), MovesIn(x.entries))
    ensures r.Ok? ==> CandidatesIn(x.entries) == CandidatesOf(orders, bars, cfg, t)
    ensures r.Ok? ==> AfterRound(s, cfg, x) == r && Ready(broker, r.value, cfg, cx, records + RecordsIn(x.entries))
    ensures r.Err? ==> Accounted(broker, cx, records + RecordsIn(x.entries)) && !r.error.BookingFailed?
  {
    var marks := MarksOf(bars);
    IdleLater(broker.history, s.nextId, s.nextId + |orders|, broker.policy);
    var s0 := s.(nextId := s.nextId + |orders|);
    var processed, es := ProcessOrders(broker, engine, cfg, s0, orders, bars, marks, t, w, cx, records);
    x := Rebalanced(rd, es);
    if processed.Err? {
      return processed, x;
    }
    RoundAfter(s, cfg, x, orders, processed.value);
    var marked := MarkEquity(processed.value, marks, t);
    r := Ok(marked);
  }

  lemma IdleLater(steps: seq<Step>, id: OrderId, later: OrderId, policy: RoundingPolicy)
    requires Idle(steps, id, policy) && id <= later
    ensures Idle(steps, later, policy)
  {
  }

  // ---- The run -------------------------------------------------------------

  /** Read everything queued before the run starts. */
  method DrainStartup(broker: IBBroker)
    modifies broker`queue, broker`taken
    requires broker.Valid()
    ensures broker.Valid() && broker.View() == old(broker.View()) && broker.queue == []
  {
    while broker.queue != []
      invariant broker.Valid() && broker.View() == old(broker.View())
      decreases |broker.queue|
    {
      var _ := broker.Get();
    }
  }

  /** The close times at which a rebalance is due: a weight row, and a bar for every instrument. */
  ghost function Due(canonical: seq<Bar>, m: Market): seq<int>
    requires MarketOk(m)
  {
    if canonical == [] then [] else Due(canonical[..|canonical| - 1], m) + DueAt(canonical[|canonical| - 1], m)
  }

  lemma DueNext(canonical: seq<Bar>, m: Market, i: nat)
    requires MarketOk(m) && i < |canonical|
    ensures Due(canonical[..i + 1], m) == Due(canonical[..i], m) + DueAt(canonical[i], m)
    ensures Due(canonical[..0], m) == []
    ensures Due(canonical[..|canonical|], m) == Due(canonical, m)
  {
    assert canonical[..i + 1][..i] == canonical[..i] && canonical[..|canonical|] == canonical;
  }

  ghost function DueAt(bar: Bar, m: Market): seq<int>
    requires MarketOk(m)
  {
    var t := bar.closeTime;
    if t in m.weights && AllHere(m.instruments, m.tapes, t) then [t] else []
  }

  /** These rebalances lead to this state, and left the kill switch so. */
  ghost predicate Along(m: Market, c: RiskConfig, cfg: PipelineConfig, start: RunState, armed: bool,
                        xs: seq<Rebalanced>, s: RunState, armedNow: bool)
    requires MarketOk(m)
  {
    && After(m, c, cfg, start, xs) == Some(s)
    && Latched(armed, AllEntries(xs)) && armedNow == Latch(armed, MovesIn(AllEntries(xs)))
  }

  lemma AlongNext(m: Market, c: RiskConfig, cfg: PipelineConfig, start: RunState, armed: bool, xs: seq<Rebalanced>,
                  s: RunState, armedNow: bool, x: Rebalanced, next: RunState, armedNext: bool)
    requires MarketOk(m) && Along(m, c, cfg, start, armed, xs, s, armedNow)
    requires Stepped(m, c, cfg, s, armedNow, x, next, armedNext)
    ensures Along(m, c, cfg, start, armed, xs + [x], next, armedNext)
    ensures RecordsIn(AllEntries(xs + [x])) == RecordsIn(AllEntries(xs)) + RecordsIn(x.entries)
    ensures TimesIn(xs + [x]) == TimesIn(xs) + [x.rd.now]
  {
    RunSnoc(m, c, cfg, start, xs, x);
    LatchedAppend(armed, AllEntries(xs), x.entries);
    RecordsAppend(AllEntries(xs), x.entries);
  }

  /** One bar of the canonical timeline: skipped without weights or without a bar for each instrument. `part`
      is what became of the candidates of a rebalance that raised. */
  method RunBar(broker: IBBroker, engine: RiskEngine, cfg: PipelineConfig, m: Market, s: RunState, bar: Bar, w: World,
                ghost cx: Context, ghost start: RunState, ghost armed: bool, ghost xs: seq<Rebalanced>)
    returns (r: Result<RunState, RunError>, ghost xs': seq<Rebalanced>, ghost part: seq<Entry>)
    requires MarketOk(m) && bar in m.tapes[m.instruments[0]] && cx.named == BySymbol(m.instruments)
    requires Ready(broker, s, cfg, cx, RecordsIn(AllEntries(xs))) && WorldOk(w)
    requires Along(m, engine.config, cfg, start, armed, xs, s, engine.killSwitch.armed)
    modifies broker, engine.killSwitch
    ensures r.Ok? ==> Along(m, engine.config, cfg, start, armed, xs', r.value, engine.killSwitch.armed)
    ensures r.Ok? ==> TimesIn(xs') == TimesIn(xs) + DueAt(bar, m)
    ensures r.Ok? ==> Ready(broker, r.value, cfg, cx, RecordsIn(AllEntries(xs')))
    ensures r.Err? ==> xs' == xs && Raised(broker, engine.config, cfg, cx, armed, xs, part) && !r.error.BookingFailed?
  {
    xs', part := xs, [];
    var t := bar.closeTime;
    if t in m.weights {
      var bars := CollectBars(m.instruments, bar, m.tapes, t);
      if |bars| == |m.instruments| {
        ghost var armedNow := engine.killSwitch.armed;
        var step, x := Rebalance(broker, engine, cfg, s, m, bars, t, w, cx, RecordsIn(AllEntries(xs)));
        if step.Err? {
          LatchedAppend(armed, AllEntries(xs), x.entries);
          return step, xs, x.entries;
        }
        AlongNext(m, engine.config, cfg, start, armed, xs, s, armedNow, x, step.value, engine.killSwitch.armed);
        return step, xs + [x], [];
      }
    }
    return Ok(s), xs, [];
  }

  /** Where a run that raised leaves the broker, and what it had done. */
  ghost predicate Raised(broker: IBBroker, c: RiskConfig, cfg: PipelineConfig, cx: Context, armed: bool,
                         xs: seq<Rebalanced>, part: seq<Entry>)
    reads broker
  {
    && EntriesOk(c, cfg, part) && Latched(armed, AllEntries(xs) + part)
    && Accounted(broker, cx, RecordsIn(AllEntries(xs)) + RecordsIn(part))
  }

  /** Every bar of the canonical timeline. */
  method RunBars(broker: IBBroker, engine: RiskEngine, cfg: PipelineConfig, m: Market, start: RunState,
                 w: World, ghost cx: Context)
    returns (r: Result<RunState, RunError>, ghost xs: seq<Rebalanced>, ghost part: seq<Entry>)
    requires MarketOk(m) && WorldOk(w) && cx.named == BySymbol(m.instruments)
    requires Ready(broker, start, cfg, cx, [])
    modifies broker, engine.killSwitch
    ensures After(m, engine.config, cfg, start, xs).Some?
    ensures r.Ok? ==> Along(m, engine.config, cfg, start, old(engine.killSwitch.armed), xs, r.value,
                            engine.killSwitch.armed)
    ensures r.Ok? ==> TimesIn(xs) == Due(m.tapes[m.instruments[0]], m)
    ensures r.Ok? ==> Ready(broker, r.value, cfg, cx, RecordsIn(AllEntries(xs)))
    ensures r.Err? ==> Raised(broker, engine.config, cfg, cx, old(engine.killSwitch.armed), xs, part)
    ensures r.Err? ==> !r.error.BookingFailed?
  {
    xs, part := [], [];
    var s := start;
    ghost var armed := engine.killSwitch.armed;
    var canonical := m.tapes[m.instruments[0]];
    for i := 0 to |canonical|
      invariant Along(m, engine.config, cfg, start, armed, xs, s, engine.killSwitch.armed)
      invariant TimesIn(xs) == Due(canonical[..i], m) && Ready(broker, s, cfg, cx, RecordsIn(AllEntries(xs)))
    {
      assert canonical[i] in canonical;
      DueNext(canonical, m, i);
      var step;
      step, xs, part := RunBar(broker, engine, cfg, m, s, canonical[i], w, cx, start, armed, xs);
      if step.Err? {
        return step, xs, part;
      }
      s := step.value;
    }
    assert canonical[..|canonical|] == canonical;
    r := Ok(s);
  }

  /** A run, against any venue, wire, scheduler and operator (`w`), for any weights and tapes. Finished or
      raised: a legal sequence of rebalances, in which every gate saw the kill switch as the operator's moves
      so far had left it; on the wire only recorded submissions; and booking never raises. Finished: one
      rebalance at every due close, leading to the result; sound books and counters. */
  method RunMulti(broker: IBBroker, engine: RiskEngine, cfg: PipelineConfig, m: Market, cash: real,
                  nextId: OrderId, w: World)
    returns (r: Result<RunState, RunError>, final: real, ghost xs: seq<Rebalanced>, ghost part: seq<Entry>)
    requires MarketOk(m) && WorldOk(w)
    requires broker.Valid() && Idle(broker.history, nextId, broker.policy)
    modifies broker, engine.killSwitch
    ensures After(m, engine.config, cfg, StartState(cash, nextId), xs).Some? && EntriesOk(engine.config, cfg, part)
    ensures Latched(old(engine.killSwitch.armed), AllEntries(xs) + part)
    ensures broker.Valid()
    ensures WireRecorded(old(broker.wire), broker.wire, LogOf(xs).records + RecordsIn(part), broker.policy)
    ensures AllSent(cfg, LogOf(xs).records + RecordsIn(part))
    ensures r.Err? ==> !r.error.BookingFailed?
    ensures r.Ok? ==> part == [] && After(m, engine.config, cfg, StartState(cash, nextId), xs) == Some(r.value)
    ensures r.Ok? ==> TimesIn(xs) == Due(m.tapes[m.instruments[0]], m) == TimesOf(r.value.curve)
    ensures r.Ok? ==> Sound(r.value, LogOf(xs), cash)
    ensures r.Ok? ==> AppliedIffWhole(LogOf(xs), broker.View().puts)
    ensures r.Ok? ==> final == if r.value.curve == [] then cash else r.value.curve[|r.value.curve| - 1].equity
  {
    final := cash;
    DrainStartup(broker);
    r, xs, part := RunBars(broker, engine, cfg, m, StartState(cash, nextId), w,
                           Context(broker.wire, BySymbol(m.instruments)));
    EveryRunLogged(xs);
    NoLookAhead(m, engine.config, cfg, StartState(cash, nextId), xs);
    if r.Err? {
      SentAsGated(engine.config, cfg, part);
      return r, cash, xs, part;
    }
    part := [];
    assert AllEntries(xs) + [] == AllEntries(xs);
    if r.value.curve != [] {
      final := r.value.curve[|r.value.curve| - 1].equity;
    }
    assert LogOf(xs).records + [] == LogOf(xs).records;
    EveryRunSound(m, engine.config, cfg, cash, nextId, xs);
    EveryRunTimed(m, engine.config, cfg, StartState(cash, nextId), xs);
    AppliedExactly(broker.history, broker.policy, r.value, LogOf(xs), cash);
  }

  /** The applied fills are exactly the broker's fills for the submitted orders, order by order, if and
      only if every order had no fill at all or one full fill read before its wait ended. */
  ghost predicate AppliedIffWhole(log: Log, puts: seq<QueueItem>) {
    log.applied == FillsOf(IdsOf(log.records), puts) <==> AllWhole(PartsOf(log.records), IdsOf(log.records), puts)
  }

  lemma AppliedExactly(steps: seq<Step>, policy: RoundingPolicy, s: RunState, log: Log, start: real)
    requires AllFresh(steps, policy) && Sound(s, log, start) && ReadsOk(log.records, Exec(steps, policy).puts)
    ensures AppliedIffWhole(log, Exec(steps, policy).puts)
  {
    var puts, parts, ids := Exec(steps, policy).puts, PartsOf(log.records), IdsOf(log.records);
    forall i | 0 <= i < |ids|
      ensures parts[i] <= Own(puts, ids[i]) && WholeTrace(Own(puts, ids[i]))
    {
      OwnEventsSound(steps, policy, ids[i]);
      assert log.records[i] in log.records;
    }
    BookedAllIff(parts, ids, puts);
  }
}
