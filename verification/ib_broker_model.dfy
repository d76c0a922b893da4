/** The IB broker as a state machine. Sections of code between real suspension points are atomic
    steps; `create_task` appends to a FIFO ready queue; the wire, the venue and the scheduler
    choose the steps. */
module IBBrokerModel {
  import opened Domain
  import opened EventQueue
  import opened OrderFsm
  import opened OrderTracking
  import opened PriceGrid

  /** The venue-side trade object, as last pushed. */
  datatype Trade = Trade(ibId: int, log: seq<LogEntry>, whyHeld: string)

  /** A scheduled coroutine: a queue put, or the deferred reject with the loop turns it still waits. */
  datatype Task = PutTask(event: OrderEvent) | RejectTask(id: OrderId, spins: nat)

  /** An order handed to the wire, with the price grid it was snapped to. */
  datatype Placement = Placement(order: Order, grid: Option<seq<Band>>)

  datatype Broker = Broker(
    inflight: seq<Order>,
    trades: map<OrderId, Trade>,
    tracking: map<OrderId, Tracking>,
    errors: map<int, LogEntry>,
    ready: seq<Task>,
    puts: seq<QueueItem>,
    wire: seq<Placement>)

  const FRESH := Broker([], map[], map[], map[], [], [], [])

  datatype Step =
    | BeginSubmit(order: Order)
    | ResumeSubmit(index: nat, grid: Option<seq<Band>>, ibId: int)
    | Push(id: OrderId, cb: Callback)
    | ErrorPush(reqId: int, code: int, message: string)
    | RunReady
    | PutNotice

  const REJECT_SPINS: nat := 3

  // ---- Submission ----------------------------------------------------------

  datatype SubmitError = DuplicateId | NoGrid | BadTable | BadOrder | Unsupported

  function Priced(o: Order): bool {
    o.limitPrice.Some? || o.stopPrice.Some?
  }

  predicate UsableTable(t: seq<Band>) {
    forall b :: b in t ==> b.increment > 0.0 && b.unit > 0.0
  }

  function SnapField(price: Option<real>, t: seq<Band>, side: OrderSide, policy: RoundingPolicy): Option<real>
    requires t != [] && UsableTable(t)
  {
    if price.Some? then Some(Snapped(t, price.value, side, policy)) else None
  }

  /** The order that may be placed, or why not. An order runs its own checks when built and again when
      its prices are replaced, so a price snapped to zero fails. */
  function SnapOrder(o: Order, grid: Option<seq<Band>>, policy: RoundingPolicy): Result<Order, SubmitError> {
    if !ValidOrder(o) then Err(BadOrder)
    else if !Priced(o) then Ok(o)
    else
      match grid
      case None => Err(NoGrid)
      case Some(t) =>
        if t == [] || !UsableTable(t) then Err(BadTable)
        else
          var o' := o.(limitPrice := SnapField(o.limitPrice, t, o.side, policy),
                       stopPrice := SnapField(o.stopPrice, t, o.side, policy));
          if ValidOrder(o') then Ok(o') else Err(BadOrder)
  }

  predicate Supported(ty: OrderType) {
    ty != Moc && ty != Loc
  }

  function Place(b: Broker, o: Order, grid: Option<seq<Band>>, ibId: int): Broker {
    b.(trades := b.trades[o.id := Trade(ibId, [], "")],
       tracking := b.tracking[o.id := NewTracking(o)],
       puts := b.puts + [OrderItem(OrderEvent(o.id, EvSubmitted, NoReason, None))],
       wire := b.wire + [Placement(o, grid)])
  }

  function Resume(b: Broker, i: nat, grid: Option<seq<Band>>, ibId: int, policy: RoundingPolicy): Broker {
    if i >= |b.inflight| then b
    else
      var o := b.inflight[i];
      var b' := b.(inflight := b.inflight[..i] + b.inflight[i + 1..]);
      match SnapOrder(o, grid, policy)
      case Err(NoGrid) =>
        b'.(puts := b'.puts + [OrderItem(OrderEvent(o.id, EvRejected, PriceRuleUnavailable, None))])
      case Err(_) => b'
      case Ok(o') => if Supported(o'.orderType) then Place(b', o', grid, ibId) else b'
  }

  // ---- Callbacks -----------------------------------------------------------

  /** An `Inactive` push on a live order defers its reject to the ready queue. */
  predicate Defers(t: Tracking, cb: Callback) {
    !t.terminal && cb.StatusPush? && cb.status == StInactive
  }

  /** An event whose reason is known is put as it is; a deferred reject first waits some loop turns. */
  function TaskOf(id: OrderId, e: Emission): Task {
    if e.reason.Some? then PutTask(OrderEvent(id, e.kind, e.reason.value, e.fill)) else RejectTask(id, REJECT_SPINS)
  }

  function TasksOf(id: OrderId, es: seq<Emission>): (ts: seq<Task>)
    ensures |ts| == |es|
  {
    seq(|es|, i requires 0 <= i < |es| => TaskOf(id, es[i]))
  }

  function Tasks(t: Tracking, id: OrderId, cb: Callback): seq<Task> {
    TasksOf(id, Handle(t, cb).1)
  }

  function Observe(tr: Trade, cb: Callback): Trade {
    if cb.StatusPush? then tr.(log := cb.log, whyHeld := cb.whyHeld) else tr
  }

  function OnPush(b: Broker, id: OrderId, cb: Callback): Broker {
    if id !in b.tracking || id !in b.trades then b
    else
      var t, trade := b.tracking[id], Observe(b.trades[id], cb);
      var t' := Handle(t, cb).0;
      b.(trades := b.trades[id := trade],
         tracking := b.tracking[id := t'],
         errors := if t'.terminal && !t.terminal && !Defers(t, cb) then b.errors - {trade.ibId} else b.errors,
         ready := b.ready + Tasks(t, id, cb))
  }

  function OnError(b: Broker, reqId: int, code: int, message: string): Broker {
    if reqId <= 0 then b else b.(errors := b.errors[reqId := LogEntry(code, message)])
  }

  /** Trade text first, then the error stash, then the generic fallback. */
  function RejectReason(b: Broker, id: OrderId): Reason {
    if id !in b.trades then Unrecoverable
    else
      var tr := b.trades[id];
      if tr.log != [] && tr.log[|tr.log| - 1].message != "" then VenueText(tr.log[|tr.log| - 1].message)
      else if tr.whyHeld != "" then VenueText(tr.whyHeld)
      else if tr.ibId in b.errors then IbError(b.errors[tr.ibId].errorCode, b.errors[tr.ibId].message)
      else Unrecoverable
  }

  function OnReady(b: Broker): Broker {
    if b.ready == [] then b
    else
      var rest := b.ready[1..];
      match b.ready[0]
      case PutTask(e) => b.(ready := rest, puts := b.puts + [OrderItem(e)])
      case RejectTask(id, n) =>
        if n > 0 then b.(ready := rest + [RejectTask(id, n - 1)])
        else
          b.(ready := rest,
             errors := if id in b.trades then b.errors - {b.trades[id].ibId} else b.errors,
             puts := b.puts + [OrderItem(OrderEvent(id, EvRejected, RejectReason(b, id), None))])
  }

  function Next(b: Broker, s: Step, policy: RoundingPolicy): Broker {
    match s
    case BeginSubmit(o) => if o.id in b.trades then b else b.(inflight := b.inflight + [o])
    case ResumeSubmit(i, grid, ibId) => Resume(b, i, grid, ibId, policy)
    case Push(id, cb) => OnPush(b, id, cb)
    case ErrorPush(reqId, code, message) => OnError(b, reqId, code, message)
    case RunReady => OnReady(b)
    case PutNotice => b.(puts := b.puts + [Notice])
  }

  function Exec(steps: seq<Step>, policy: RoundingPolicy): Broker {
    if steps == [] then FRESH else Next(Exec(steps[..|steps| - 1], policy), steps[|steps| - 1], policy)
  }

  // ---- One order's view of a run -------------------------------------------

  function Emitted(e: OrderEvent): Emission {
    Emission(e.kind, e.fill, Some(e.reason))
  }

  function AllEmitted(es: seq<OrderEvent>): (ms: seq<Emission>)
    ensures |ms| == |es| && forall i :: 0 <= i < |es| ==> ms[i] == Emitted(es[i])
  {
    seq(|es|, i requires 0 <= i < |es| => Emitted(es[i]))
  }

  function TaskId(t: Task): OrderId {
    match t case PutTask(e) => e.id case RejectTask(id, _) => id
  }

  function TaskEmission(t: Task): Emission {
    match t case PutTask(e) => Emitted(e) case RejectTask(_, _) => Emission(EvRejected, None, None)
  }

  /** Events of `id` still scheduled. */
  function Waiting(ready: seq<Task>, id: OrderId): seq<Emission> {
    if ready == [] then []
    else
      var last := ready[|ready| - 1];
      Waiting(ready[..|ready| - 1], id) + if TaskId(last) == id then [TaskEmission(last)] else []
  }

  function EventsOf(b: Broker, id: OrderId): seq<Emission> {
    AllEmitted(Own(b.puts, id)) + Waiting(b.ready, id)
  }

  /** Callbacks the wire delivered to `id` once it was placed. */
  function CallbacksTo(steps: seq<Step>, id: OrderId, policy: RoundingPolicy): seq<Callback> {
    if steps == [] then []
    else
      var init, s := steps[..|steps| - 1], steps[|steps| - 1];
      CallbacksTo(init, id, policy) +
      if s.Push? && s.id == id && id in Exec(init, policy).tracking then [s.cb] else []
  }

  /** An order no submit of which can announce anything: invalid, or of a type the adapter refuses. */
  predicate Inert(o: Order) {
    !ValidOrder(o) || !Supported(o.orderType)
  }

  /** A submit of `id` that may still announce something is suspended. */
  ghost predicate InFlight(b: Broker, id: OrderId) {
    exists i :: 0 <= i < |b.inflight| && LiveAt(b, i, id)
  }

  predicate LiveAt(b: Broker, i: nat, id: OrderId)
    requires i < |b.inflight|
  {
    b.inflight[i].id == id && !Inert(b.inflight[i])
  }

  /** Beginning to submit `id` now is refused as a duplicate, or follows no event and no submit in progress. */
  ghost predicate FreshBegin(b: Broker, id: OrderId) {
    id in b.trades || (EventsOf(b, id) == [] && !InFlight(b, id))
  }

  ghost predicate FreshStep(b: Broker, s: Step, id: OrderId) {
    s.BeginSubmit? && s.order.id == id ==> Inert(s.order) || FreshBegin(b, id)
  }

  /** Every submit of `id` began fresh. */
  ghost predicate FreshFor(steps: seq<Step>, policy: RoundingPolicy, id: OrderId) {
    steps == [] ||
    var init, s := steps[..|steps| - 1], steps[|steps| - 1];
    FreshFor(init, policy, id) && FreshStep(Exec(init, policy), s, id)
  }

  // ---- Lemmas on the projections -------------------------------------------

  lemma {:induction false} WaitingConcat(a: seq<Task>, b: seq<Task>, id: OrderId)
    ensures Waiting(a + b, id) == Waiting(a, id) + Waiting(b, id)
  {
    if b == [] {
      assert a + b == a;
    } else {
      WaitingConcat(a, b[..|b| - 1], id);
      assert (a + b)[..|a + b| - 1] == a + b[..|b| - 1];
    }
  }

  lemma {:induction false} WaitingNone(ready: seq<Task>, id: OrderId)
    requires forall t :: t in ready ==> TaskId(t) != id
    ensures Waiting(ready, id) == []
  {
    if ready != [] {
      WaitingNone(ready[..|ready| - 1], id);
    }
  }

  lemma {:induction false} WaitingAll(id: OrderId, es: seq<Emission>)
    requires forall e :: e in es && e.reason.None? ==> e == Emission(EvRejected, None, None)
    ensures Waiting(TasksOf(id, es), id) == es
    ensures forall o :: o != id ==> Waiting(TasksOf(id, es), o) == []
  {
    var ts := TasksOf(id, es);
    if es != [] {
      assert es[|es| - 1] in es;
      WaitingAll(id, es[..|es| - 1]);
      assert ts[..|ts| - 1] == TasksOf(id, es[..|es| - 1]);
    }
  }

  lemma QueuedSnoc(puts: seq<QueueItem>, q: QueueItem, id: OrderId)
    ensures AllEmitted(Own(puts + [q], id)) ==
            AllEmitted(Own(puts, id)) + if q.OrderItem? && q.event.id == id then [Emitted(q.event)] else []
  {
    OwnConcat(puts, q, id);
  }

  /** The scheduled work of a push is exactly what the order's own machine emits. */
  lemma WaitingTasks(t: Tracking, id: OrderId, cb: Callback)
    ensures Waiting(Tasks(t, id, cb), id) == Handle(t, cb).1
    ensures forall o :: o != id ==> Waiting(Tasks(t, id, cb), o) == []
  {
    WaitingAll(id, Handle(t, cb).1);
  }
}
