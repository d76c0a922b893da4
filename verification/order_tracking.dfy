/** One placed IB order seen on its own: how wire callbacks move its tracking flags and which
    events they emit, and what every callback sequence keeps. */
module OrderTracking {
  import opened Domain
  import opened OrderFsm

  datatype IBStatus =
    | StPendingSubmit | StPreSubmitted | StSubmitted | StPendingCancel
    | StCancelled | StApiCancelled | StInactive | StFilled | StOther

  datatype LogEntry = LogEntry(errorCode: int, message: string)

  datatype Execution = Execution(execId: string, shares: real, price: real, time: int)

  /** What IB can push for an order; the adversary picks any sequence of these. */
  datatype Callback =
    | StatusPush(status: IBStatus, log: seq<LogEntry>, whyHeld: string)
    | FillPush(execution: Option<Execution>, commission: Option<real>)

  datatype Tracking = Tracking(
    order: Order, accepted: bool, terminal: bool, seen: set<string>, cumulative: real)

  /** An event to be queued; the reason of a deferred reject is open (`None`) until its coroutine ends. */
  datatype Emission = Emission(kind: EventKind, fill: Option<Fill>, reason: Option<Reason>)

  predicate IsAccepting(s: IBStatus) {
    s == StSubmitted || s == StPreSubmitted
  }

  predicate IsCancelling(s: IBStatus) {
    s == StCancelled || s == StApiCancelled
  }

  /** Most recent log entry with a non-zero error code. */
  function LastErrorEntry(log: seq<LogEntry>): Option<LogEntry> {
    if log == [] then None
    else if log[|log| - 1].errorCode != 0 then Some(log[|log| - 1])
    else LastErrorEntry(log[..|log| - 1])
  }

  function NewTracking(order: Order): Tracking {
    Tracking(order, false, false, {}, 0.0)
  }

  function FillOf(order: Order, e: Execution, commission: Option<real>): Fill {
    Fill(order.id, e.execId, order.instrument, order.side, e.shares, e.price,
         if commission.Some? then commission.value else 0.0, e.time)
  }

  function Plain(kind: EventKind, fill: Option<Fill>): Emission {
    Emission(kind, fill, Some(NoReason))
  }

  function CancelKind(t: Tracking, log: seq<LogEntry>): EventKind {
    if !t.accepted && LastErrorEntry(log).Some? then EvRejected else EvCanceled
  }

  function CancelReason(t: Tracking, log: seq<LogEntry>): Reason {
    var entry := LastErrorEntry(log);
    if !t.accepted && entry.Some? then IbError(entry.value.errorCode, entry.value.message) else EngineCancel
  }

  /** One callback: the new tracking record and the events it causes, in order. A fill whose payload
      no Fill accepts raises after its execution id and the acceptance were recorded. */
  function Handle(t: Tracking, cb: Callback): (Tracking, seq<Emission>) {
    if t.terminal then (t, [])
    else
      match cb
      case StatusPush(status, log, _) =>
        if IsAccepting(status) && !t.accepted then (t.(accepted := true), [Plain(EvAccepted, None)])
        else if IsCancelling(status) then 
          (t.(terminal := true), [Emission(CancelKind(t, log), None, Some(CancelReason(t, log)))])
        else if status == StInactive then (t.(terminal := true), [Emission(EvRejected, None, None)])
        else (t, [])
      case FillPush(None, _) => (t, [])
      case FillPush(Some(e), commission) =>
        if e.execId == "" || e.execId in t.seen then (t, [])
        else
          var ack := if t.accepted then [] else [Plain(EvAccepted, None)];
          var t1 := t.(accepted := true, seen := t.seen + {e.execId});
          var fill := FillOf(t.order, e, commission);
          if !ValidFill(fill) then (t1, ack)
          else
            var cum := t.cumulative + fill.quantity;
            var done := cum >= t.order.quantity;
            (t1.(cumulative := cum, terminal := done),
             ack + [Plain(if done then EvFilled else EvPartialFill, Some(fill))])
  }

  function Track(t: Tracking, cbs: seq<Callback>): Tracking {
    if cbs == [] then t else Handle(Track(t, cbs[..|cbs| - 1]), cbs[|cbs| - 1]).0
  }

  function Emissions(t: Tracking, cbs: seq<Callback>): seq<Emission> {
    if cbs == [] then []
    else Emissions(t, cbs[..|cbs| - 1]) + Handle(Track(t, cbs[..|cbs| - 1]), cbs[|cbs| - 1]).1
  }

  function Kinds(es: seq<Emission>): (ks: seq<EventKind>)
    ensures |ks| == |es| && forall i :: 0 <= i < |es| ==> ks[i] == es[i].kind
  {
    seq(|es|, i requires 0 <= i < |es| => es[i].kind)
  }

  /** Everything queued for a placed order. */
  function Trace(order: Order, cbs: seq<Callback>): seq<EventKind> {
    [EvSubmitted] + Kinds(Emissions(NewTracking(order), cbs))
  }

  lemma TraceSnoc(order: Order, cbs: seq<Callback>)
    requires cbs != []
    ensures var init := cbs[..|cbs| - 1];
            Trace(order, cbs) ==
            Trace(order, init) + Kinds(Handle(Track(NewTracking(order), init), cbs[|cbs| - 1]).1)
  {
  }

  // ---- Shape of every trace ------------------------------------------------

  /** SUBMITTED once and first, then at most one ACCEPTED, right after it; fills only after ACCEPTED;
      a terminal event only at the very end. */
  ghost predicate Shape(ks: seq<EventKind>) {
    && ks != [] && ks[0] == EvSubmitted
    && (forall i :: 0 < i < |ks| ==> ks[i] != EvSubmitted)
    && (forall i :: 0 <= i < |ks| && ks[i] == EvAccepted ==> i == 1)
    && (forall i :: 0 <= i < |ks| && IsFillKind(ks[i]) ==> i >= 2 && ks[1] == EvAccepted)
    && (forall i :: 0 <= i < |ks| && IsTerminalKind(ks[i]) ==> i == |ks| - 1)
  }

  /** What one callback can add, given the flags before and after it. */
  ghost predicate StepKinds(accepted: bool, terminal: bool, ks: seq<EventKind>, accepted': bool, terminal': bool) {
    || (ks == [] && accepted' == accepted && terminal' == terminal)
    || (ks == [EvAccepted] && !terminal && !accepted && accepted' && !terminal')
    || (ks in {[EvCanceled], [EvRejected]} && !terminal && accepted' == accepted && terminal')
    || (!terminal && accepted && accepted' && ks == [if terminal' then EvFilled else EvPartialFill])
    || (!terminal && !accepted && accepted' && ks == [EvAccepted, if terminal' then EvFilled else EvPartialFill])
  }

  lemma HandleKinds(t: Tracking, cb: Callback)
    ensures var r := Handle(t, cb); StepKinds(t.accepted, t.terminal, Kinds(r.1), r.0.accepted, r.0.terminal)
  {
    var out := Handle(t, cb).1;
    if |out| == 1 {
      assert Kinds(out) == [out[0].kind];
    } else if |out| == 2 {
      assert Kinds(out) == [out[0].kind, out[1].kind];
    }
  }

  ghost predicate ShapeWithFlags(ks: seq<EventKind>, accepted: bool, terminal: bool) {
    && Shape(ks)
    && (accepted <==> |ks| >= 2 && ks[1] == EvAccepted)
    && (!accepted && !terminal ==> |ks| == 1)
    && (terminal <==> IsTerminalKind(ks[|ks| - 1]))
  }

  lemma ShapeStep(ks: seq<EventKind>, out: seq<EventKind>, a: bool, e: bool, a': bool, e': bool)
    requires ShapeWithFlags(ks, a, e) && StepKinds(a, e, out, a', e')
    ensures ShapeWithFlags(ks + out, a', e')
  {
    if out == [] {
      assert ks + out == ks;
    } else if |out| == 1 {
      assert ks + out == ks + [out[0]];
    } else {
      assert ks + out == ks + [out[0], out[1]];
    }
  }

  /** Every callback sequence whatsoever yields a trace of that shape. */
  lemma {:induction false} TraceHasShape(order: Order, cbs: seq<Callback>)
    ensures Shape(Trace(order, cbs))
    ensures var t := Track(NewTracking(order), cbs); ShapeWithFlags(Trace(order, cbs), t.accepted, t.terminal)
  {
    if cbs != [] {
      var init, cb := cbs[..|cbs| - 1], cbs[|cbs| - 1];
      TraceHasShape(order, init);
      TraceSnoc(order, cbs);
      var t := Track(NewTracking(order), init);
      var r := Handle(t, cb);
      HandleKinds(t, cb);
      ShapeStep(Trace(order, init), Kinds(r.1), t.accepted, t.terminal, r.0.accepted, r.0.terminal);
    }
  }

  // ---- Runs of the declared machine ----------------------------------------

  /** An `Inactive` push reaches the order after its acceptance and before any terminal event. */
  predicate RejectsLiveOrder(order: Order, cbs: seq<Callback>) {
    cbs != [] &&
    var init, cb := cbs[..|cbs| - 1], cbs[|cbs| - 1];
    var t := Track(NewTracking(order), init);
    || RejectsLiveOrder(order, init)
    || (cb.StatusPush? && cb.status == StInactive && t.accepted && !t.terminal)
  }

  /** Where the declared machine stands after a trace, as the tracking flags tell it. */
  ghost predicate Tracks(s: Option<OrderState>, accepted: bool, terminal: bool) {
    s.Some? &&
    if terminal then IsTerminal(s.value)
    else if accepted then s.value in {Accepted, PartiallyFilled}
    else s.value == Submitted
  }

  lemma AfterStep(ks: seq<EventKind>, out: seq<EventKind>, a: bool, e: bool, a': bool, e': bool)
    requires StepKinds(a, e, out, a', e')
    requires Tracks(After(ks), a, e)
    ensures if out == [EvRejected] && a then After(ks + out) == None else Tracks(After(ks + out), a', e')
  {
    if out == [] {
      assert ks + out == ks;
    } else if |out| == 1 {
      AfterOne(ks, out[0]);
      assert out == [out[0]];
    } else {
      AfterOne(ks, EvAccepted);
      AfterOne(ks + [EvAccepted], out[1]);
      assert ks + out == ks + [EvAccepted] + [out[1]];
    }
  }

  lemma AfterOne(ks: seq<EventKind>, k: EventKind)
    requires After(ks).Some? && !IsTerminal(After(ks).value)
    ensures After(ks).value == Submitted ==>
              && (k == EvAccepted ==> After(ks + [k]) == Some(Accepted))
              && (k == EvCanceled ==> After(ks + [k]) == Some(Canceled))
              && (k == EvRejected ==> After(ks + [k]) == Some(Rejected))
    ensures After(ks).value in {Accepted, PartiallyFilled} ==>
              && (k == EvPartialFill ==> After(ks + [k]) == Some(PartiallyFilled))
              && (k == EvFilled ==> After(ks + [k]) == Some(Filled))
              && (k == EvCanceled ==> After(ks + [k]) == Some(Canceled))
              && (k == EvRejected ==> After(ks + [k]) == None)
  {
    AfterSnoc(ks, k);
  }

  lemma {:induction false} AfterTrace(order: Order, cbs: seq<Callback>)
    ensures var t, s := Track(NewTracking(order), cbs), After(Trace(order, cbs));
            if RejectsLiveOrder(order, cbs) then t.terminal && s == None
            else Tracks(s, t.accepted, t.terminal)
  {
    if cbs == [] {
      AfterSnoc([], EvSubmitted);
      assert Trace(order, cbs) == [] + [EvSubmitted];
    } else {
      var init, cb := cbs[..|cbs| - 1], cbs[|cbs| - 1];
      AfterTrace(order, init);
      TraceSnoc(order, cbs);
      var t := Track(NewTracking(order), init);
      var r := Handle(t, cb);
      var ks := Trace(order, init);
      if RejectsLiveOrder(order, init) {
        assert ks + Kinds(r.1) == ks;
      } else {
        HandleKinds(t, cb);
        AfterStep(ks, Kinds(r.1), t.accepted, t.terminal, r.0.accepted, r.0.terminal);
        assert RejectsLiveOrder(order, cbs) <==> Kinds(r.1) == [EvRejected] && t.accepted;
      }
    }
  }

  /** The queued events are a run of the declared machine exactly when no live order is rejected. */
  lemma TraceIsRunIff(order: Order, cbs: seq<Callback>)
    ensures IsRun(Trace(order, cbs)) <==> !RejectsLiveOrder(order, cbs)
  {
    AfterTrace(order, cbs);
    RunIffAfter(Trace(order, cbs));
  }

  /** The illegal REJECTED comes last: without it the trace is a run. */
  lemma {:induction false} LiveRejectIsLast(order: Order, cbs: seq<Callback>)
    requires RejectsLiveOrder(order, cbs)
    ensures var ks := Trace(order, cbs); ks[|ks| - 1] == EvRejected && After(ks[..|ks| - 1]).Some?
  {
    var init, cb := cbs[..|cbs| - 1], cbs[|cbs| - 1];
    TraceSnoc(order, cbs);
    AfterTrace(order, init);
    var t := Track(NewTracking(order), init);
    var added := Kinds(Handle(t, cb).1);
    if RejectsLiveOrder(order, init) {
      LiveRejectIsLast(order, init);
      assert Trace(order, init) + added == Trace(order, init);
    } else {
      assert added == [EvRejected];
      assert (Trace(order, init) + [EvRejected])[..|Trace(order, init)|] == Trace(order, init);
    }
  }

  /** Everything queued for a placed order, reasons included where they are decided at once. */
  function Spec(order: Order, cbs: seq<Callback>): (ms: seq<Emission>)
    ensures Kinds(ms) == Trace(order, cbs)
  {
    assert Kinds([Plain(EvSubmitted, None)] + Emissions(NewTracking(order), cbs)) == Trace(order, cbs);
    [Plain(EvSubmitted, None)] + Emissions(NewTracking(order), cbs)
  }

  /** Only a REJECTED at the very end, that of an `Inactive` push, has its reason left open. */
  lemma OpenReasonIsLast(order: Order, cbs: seq<Callback>, i: nat)
    requires i < |Spec(order, cbs)| && Spec(order, cbs)[i].reason.None?
    ensures i == |Spec(order, cbs)| - 1 && Spec(order, cbs)[i] == Emission(EvRejected, None, None)
  {
    TraceHasShape(order, cbs);
    OpenReasonIsReject(NewTracking(order), cbs);
    assert Trace(order, cbs)[i] == EvRejected;
  }

  lemma {:induction false} OpenReasonIsReject(t: Tracking, cbs: seq<Callback>)
    ensures forall e :: e in Emissions(t, cbs) && e.reason.None? ==> e == Emission(EvRejected, None, None)
  {
    if cbs != [] {
      OpenReasonIsReject(t, cbs[..|cbs| - 1]);
    }
  }

  /** The shortest trace the declared machine lacks: acceptance, then `Inactive`. */
  lemma InactiveAfterAcceptance(order: Order)
    ensures var cbs := [StatusPush(StSubmitted, [], ""), StatusPush(StInactive, [], "")];
            && Trace(order, cbs) == [EvSubmitted, EvAccepted, EvRejected]
            && !IsRun(Trace(order, cbs))
  {
    var a, b := StatusPush(StSubmitted, [], ""), StatusPush(StInactive, [], "");
    assert [a, b][..1] == [a] && [a][..0] == [];
    TraceSnoc(order, [a]);
    TraceSnoc(order, [a, b]);
    TraceIsRunIff(order, [a, b]);
  }

  // ---- Re-delivery ---------------------------------------------------------

  datatype Key = StatusKey(status: IBStatus) | ExecKey(execId: string)

  function KeyOf(cb: Callback): Key {
    match cb
    case StatusPush(status, _, _) => StatusKey(status)
    case FillPush(e, _) => ExecKey(if e.Some? then e.value.execId else "")
  }

  /** The stream without every callback whose status or execution id was delivered before. */
  function Dedup(cbs: seq<Callback>): seq<Callback> {
    if cbs == [] then []
    else
      var init, cb := cbs[..|cbs| - 1], cbs[|cbs| - 1];
      if Repeated(init, cb) then Dedup(init) else Dedup(init) + [cb]
  }

  predicate Absorbs(t: Tracking, k: Key) {
    || t.terminal
    || match k
       case StatusKey(s) => !IsCancelling(s) && s != StInactive && (IsAccepting(s) ==> t.accepted)
       case ExecKey(id) => id == "" || id in t.seen
  }

  lemma {:induction false} DeliveredIsAbsorbed(t: Tracking, cbs: seq<Callback>, i: nat)
    requires i < |cbs|
    ensures Absorbs(Track(t, cbs), KeyOf(cbs[i]))
  {
    if i < |cbs| - 1 {
      DeliveredIsAbsorbed(t, cbs[..|cbs| - 1], i);
    }
  }

  lemma AbsorbedIsNoop(t: Tracking, cb: Callback)
    requires Absorbs(t, KeyOf(cb))
    ensures Handle(t, cb) == (t, [])
  {
  }

  predicate Repeated(init: seq<Callback>, cb: Callback) {
    exists i :: 0 <= i < |init| && KeyOf(init[i]) == KeyOf(cb)
  }

  lemma RepeatIsNoop(t: Tracking, init: seq<Callback>, cb: Callback)
    requires Repeated(init, cb)
    ensures Handle(Track(t, init), cb) == (Track(t, init), [])
  {
    var i :| 0 <= i < |init| && KeyOf(init[i]) == KeyOf(cb);
    DeliveredIsAbsorbed(t, init, i);
    AbsorbedIsNoop(Track(t, init), cb);
  }

  /** Only first deliveries matter: two streams with the same first deliveries emit the same events. */
  lemma {:induction false} RedeliveryIgnored(t: Tracking, cbs: seq<Callback>)
    ensures Track(t, cbs) == Track(t, Dedup(cbs)) && Emissions(t, cbs) == Emissions(t, Dedup(cbs))
  {
    if cbs != [] {
      var init, cb := cbs[..|cbs| - 1], cbs[|cbs| - 1];
      RedeliveryIgnored(t, init);
      if Repeated(init, cb) {
        RepeatIsNoop(t, init, cb);
      } else {
        TrackSnoc(t, Dedup(init), cb);
      }
    }
  }

  /** Inserting a repeat anywhere after a first delivery leaves the first deliveries as they were. */
  lemma {:induction false} DedupInsert(a: seq<Callback>, cb: Callback, b: seq<Callback>)
    requires Repeated(a, cb)
    ensures Dedup(a + [cb] + b) == Dedup(a + b)
    ensures forall c :: Repeated(a + [cb] + b, c) <==> Repeated(a + b, c)
  {
    var long, short := a + [cb] + b, a + b;
    if b == [] {
      assert long[..|long| - 1] == a && short == a;
    } else {
      var b0, last := b[..|b| - 1], b[|b| - 1];
      DedupInsert(a, cb, b0);
      assert long[..|long| - 1] == a + [cb] + b0 && short[..|short| - 1] == a + b0;
    }
    forall c
      ensures Repeated(long, c) <==> Repeated(short, c)
    {
      RepeatedInsert(a, cb, b, c);
    }
  }

  lemma RepeatedInsert(a: seq<Callback>, cb: Callback, b: seq<Callback>, c: Callback)
    requires Repeated(a, cb)
    ensures Repeated(a + [cb] + b, c) <==> Repeated(a + b, c)
  {
    var long, short := a + [cb] + b, a + b;
    var j :| 0 <= j < |a| && KeyOf(a[j]) == KeyOf(cb);
    if i :| 0 <= i < |long| && KeyOf(long[i]) == KeyOf(c) {
      var i' := if i < |a| then i else if i == |a| then j else i - 1;
      assert KeyOf(short[i']) == KeyOf(c);
    }
    if i :| 0 <= i < |short| && KeyOf(short[i]) == KeyOf(c) {
      var i' := if i < |a| then i else i + 1;
      assert KeyOf(long[i']) == KeyOf(c);
    }
  }

  /** Re-delivering earlier callbacks, anywhere later, changes no emission: kinds, fills and every reason
      decided on the spot stay; a deferred reject leaves its reason open either way. */
  lemma RepeatInsertedAnywhere(t: Tracking, a: seq<Callback>, cb: Callback, b: seq<Callback>)
    requires Repeated(a, cb)
    ensures Emissions(t, a + [cb] + b) == Emissions(t, a + b) && Track(t, a + [cb] + b) == Track(t, a + b)
  {
    DedupInsert(a, cb, b);
    RedeliveryIgnored(t, a + [cb] + b);
    RedeliveryIgnored(t, a + b);
  }

  lemma TrackSnoc(t: Tracking, cbs: seq<Callback>, cb: Callback)
    ensures Track(t, cbs + [cb]) == Handle(Track(t, cbs), cb).0
    ensures Emissions(t, cbs + [cb]) == Emissions(t, cbs) + Handle(Track(t, cbs), cb).1
  {
    var all := cbs + [cb];
    assert all[..|all| - 1] == cbs;
  }

  // ---- Fills ---------------------------------------------------------------

  function FilledQty(es: seq<Emission>): real {
    if es == [] then 0.0
    else
      FilledQty(es[..|es| - 1]) + (if es[|es| - 1].fill.Some? then es[|es| - 1].fill.value.quantity else 0.0)
  }

  lemma {:induction false} FilledQtyConcat(a: seq<Emission>, b: seq<Emission>)
    ensures FilledQty(a + b) == FilledQty(a) + FilledQty(b)
  {
    if b == [] {
      assert a + b == a;
    } else {
      FilledQtyConcat(a, b[..|b| - 1]);
      assert (a + b)[..|a + b| - 1] == a + b[..|b| - 1];
    }
  }

  lemma HandleQty(t: Tracking, cb: Callback)
    ensures FilledQty(Handle(t, cb).1) == Handle(t, cb).0.cumulative - t.cumulative
  {
    var out := Handle(t, cb).1;
    if |out| == 1 {
      assert FilledQty(out[..0]) == 0.0;
    } else if |out| == 2 {
      assert out[..1][..0] == [] && out[..1][0] == out[0];
      assert FilledQty(out[..1]) == 0.0;
    }
  }

  /** Emitted quantities add up to the tracked cumulative quantity. */
  lemma {:induction false} FillsSumToCumulative(order: Order, cbs: seq<Callback>)
    ensures FilledQty(Emissions(NewTracking(order), cbs)) == Track(NewTracking(order), cbs).cumulative
  {
    if cbs != [] {
      var init, cb := cbs[..|cbs| - 1], cbs[|cbs| - 1];
      var t := Track(NewTracking(order), init);
      FillsSumToCumulative(order, init);
      HandleQty(t, cb);
      FilledQtyConcat(Emissions(NewTracking(order), init), Handle(t, cb).1);
    }
  }

  /** Valid, for this order, from a seen execution. */
  ghost predicate Faithful(order: Order, seen: set<string>, e: Emission) {
    && (e.fill.Some? <==> IsFillKind(e.kind))
    && (e.fill.Some? ==>
          var f := e.fill.value;
          && ValidFill(f) && f.orderId == order.id && f.instrument == order.instrument
          && f.side == order.side && f.execId in seen)
  }

  ghost predicate AllFaithful(order: Order, seen: set<string>, es: seq<Emission>) {
    forall e :: e in es ==> Faithful(order, seen, e)
  }

  /** No execution is reported twice. */
  ghost predicate DistinctExecs(es: seq<Emission>) {
    forall i, j :: 0 <= i < j < |es| && es[i].fill.Some? && es[j].fill.Some? ==>
      es[i].fill.value.execId != es[j].fill.value.execId
  }

  /** At most the last emission of a callback carries a fill, and its execution is new. */
  lemma HandleFaithful(t: Tracking, cb: Callback)
    ensures var (t', out) := Handle(t, cb);
            && t'.order == t.order && t.seen <= t'.seen
            && AllFaithful(t.order, t'.seen, out)
            && (forall i :: 0 <= i < |out| && out[i].fill.Some? ==>
                  i == |out| - 1 && out[i].fill.value.execId !in t.seen)
  {
  }

  lemma FaithfulConcat(order: Order, seen: set<string>, a: seq<Emission>, seen': set<string>, out: seq<Emission>)
    requires AllFaithful(order, seen, a) && AllFaithful(order, seen', out) && seen <= seen' && DistinctExecs(a)
    requires forall i :: 0 <= i < |out| && out[i].fill.Some? ==> i == |out| - 1 && out[i].fill.value.execId !in seen
    ensures AllFaithful(order, seen', a + out) && DistinctExecs(a + out)
  {
    assert forall i :: 0 <= i < |a| ==> Faithful(order, seen, a[i]);
  }

  /** The fill is what the first delivery of its execution says: quantity, price, commission and time. */
  ghost predicate FirstDelivery(order: Order, cbs: seq<Callback>, f: Fill) {
    exists i :: 0 <= i < |cbs| && FillsFrom(order, cbs[i], f) && !Repeated(cbs[..i], cbs[i])
  }

  predicate FillsFrom(order: Order, cb: Callback, f: Fill) {
    && cb.FillPush? && cb.execution.Some?
    && var e := cb.execution.value;
       f == Fill(order.id, e.execId, order.instrument, order.side, e.shares, e.price,
                 if cb.commission.Some? then cb.commission.value else 0.0, e.time)
  }

  ghost predicate AllFirst(order: Order, cbs: seq<Callback>, es: seq<Emission>) {
    forall e :: e in es && e.fill.Some? ==> FirstDelivery(order, cbs, e.fill.value)
  }

  lemma FirstStays(order: Order, init: seq<Callback>, cb: Callback, f: Fill)
    requires FirstDelivery(order, init, f)
    ensures FirstDelivery(order, init + [cb], f)
  {
    var i :| 0 <= i < |init| && FillsFrom(order, init[i], f) && !Repeated(init[..i], init[i]);
    var all := init + [cb];
    assert all[i] == init[i] && all[..i] == init[..i];
  }

  lemma FirstNow(order: Order, init: seq<Callback>, cb: Callback)
    requires Track(NewTracking(order), init).order == order
    ensures AllFirst(order, init + [cb], Handle(Track(NewTracking(order), init), cb).1)
  {
    var t := Track(NewTracking(order), init);
    var out := Handle(t, cb).1;
    if Repeated(init, cb) {
      RepeatIsNoop(NewTracking(order), init, cb);
    } else {
      var all := init + [cb];
      assert all[|init|] == cb && all[..|init|] == init;
    }
  }

  /** Fill payloads: valid, for this order, each execution at most once, and as first delivered. */
  lemma {:induction false} FillsAreFaithful(order: Order, cbs: seq<Callback>)
    ensures Track(NewTracking(order), cbs).order == order
    ensures AllFaithful(order, Track(NewTracking(order), cbs).seen, Emissions(NewTracking(order), cbs))
    ensures DistinctExecs(Emissions(NewTracking(order), cbs))
    ensures AllFirst(order, cbs, Emissions(NewTracking(order), cbs))
  {
    if cbs != [] {
      var init, cb := cbs[..|cbs| - 1], cbs[|cbs| - 1];
      FillsAreFaithful(order, init);
      var t := Track(NewTracking(order), init);
      HandleFaithful(t, cb);
      FaithfulConcat(order, t.seen, Emissions(NewTracking(order), init), Handle(t, cb).0.seen, Handle(t, cb).1);
      FirstConcat(order, init, cb, Emissions(NewTracking(order), init));
      assert cbs == init + [cb];
    }
  }

  lemma FirstConcat(order: Order, init: seq<Callback>, cb: Callback, es: seq<Emission>)
    requires AllFirst(order, init, es) && Track(NewTracking(order), init).order == order
    ensures AllFirst(order, init + [cb], es + Handle(Track(NewTracking(order), init), cb).1)
  {
    FirstNow(order, init, cb);
    forall e | e in es && e.fill.Some?
      ensures FirstDelivery(order, init + [cb], e.fill.value)
    {
      FirstStays(order, init, cb, e.fill.value);
    }
  }

  // ---- When FILLED fires ---------------------------------------------------

  predicate EndsOrder(cb: Callback) {
    cb.StatusPush? && (IsCancelling(cb.status) || cb.status == StInactive)
  }

  /** The callbacks before the first cancellation or inactivation. */
  function Live(cbs: seq<Callback>): (live: seq<Callback>)
    ensures live <= cbs
    ensures live == cbs || EndsOrder(cbs[|live|])
    ensures forall i :: 0 <= i < |live| ==> !EndsOrder(live[i])
  {
    if cbs == [] then []
    else
      var init := cbs[..|cbs| - 1];
      if Live(init) == init && !EndsOrder(cbs[|cbs| - 1]) then cbs else Live(init)
  }

  predicate Delivered(cbs: seq<Callback>, execId: string) {
    exists i :: 0 <= i < |cbs| && KeyOf(cbs[i]) == ExecKey(execId)
  }

  /** Total quantity over first deliveries of well-formed executions. */
  function DistinctQty(order: Order, cbs: seq<Callback>): real {
    if cbs == [] then 0.0
    else
      var init, cb := cbs[..|cbs| - 1], cbs[|cbs| - 1];
      DistinctQty(order, init) +
      if cb.FillPush? && cb.execution.Some? && !Delivered(init, cb.execution.value.execId)
         && ValidFill(FillOf(order, cb.execution.value, cb.commission))
      then cb.execution.value.shares
      else 0.0
  }

  lemma {:induction false} DistinctQtyMonotone(order: Order, a: seq<Callback>, b: seq<Callback>)
    requires a <= b
    ensures DistinctQty(order, a) <= DistinctQty(order, b)
  {
    if a != b {
      DistinctQtyMonotone(order, a, b[..|b| - 1]);
    }
  }

  lemma {:induction false} LiveTracking(order: Order, cbs: seq<Callback>)
    requires order.quantity > 0.0
    requires forall i :: 0 <= i < |cbs| ==> !EndsOrder(cbs[i])
    ensures var t := Track(NewTracking(order), cbs);
            && t.order == order
            && (t.terminal <==> DistinctQty(order, cbs) >= order.quantity)
            && (!t.terminal ==> t.cumulative == DistinctQty(order, cbs))
            && (!t.terminal ==> forall id :: id != "" ==> (id in t.seen <==> Delivered(cbs, id)))
  {
    if cbs != [] {
      var init, cb := cbs[..|cbs| - 1], cbs[|cbs| - 1];
      LiveTracking(order, init);
      DistinctQtyMonotone(order, init, cbs);
      DeliveredSnoc(init, cb);
      assert cbs == init + [cb];
    }
  }

  /** Without a cancellation only FILLED ends an order. */
  lemma {:induction false} LiveEndsFilled(order: Order, cbs: seq<Callback>)
    requires forall i :: 0 <= i < |cbs| ==> !EndsOrder(cbs[i])
    ensures Track(NewTracking(order), cbs).terminal <==> EvFilled in Trace(order, cbs)
  {
    if cbs == [] {
      assert EvFilled !in [EvSubmitted];
    } else {
      var init, cb := cbs[..|cbs| - 1], cbs[|cbs| - 1];
      LiveEndsFilled(order, init);
      TraceSnoc(order, cbs);
      var out := Handle(Track(NewTracking(order), init), cb).1;
      assert EvFilled in Kinds(out) <==> out != [] && out[|out| - 1].kind == EvFilled;
    }
  }

  lemma DeliveredSnoc(init: seq<Callback>, cb: Callback)
    ensures forall id :: Delivered(init + [cb], id) <==> Delivered(init, id) || KeyOf(cb) == ExecKey(id)
  {
    forall id
      ensures Delivered(init + [cb], id) <==> Delivered(init, id) || KeyOf(cb) == ExecKey(id)
    {
      var all := init + [cb];
      assert all[|init|] == cb;
      if i :| 0 <= i < |init| && KeyOf(init[i]) == ExecKey(id) {
        assert KeyOf(all[i]) == ExecKey(id);
      }
    }
  }

  lemma {:induction false} EndFreezes(order: Order, cbs: seq<Callback>)
    requires Live(cbs) != cbs
    ensures var n := |Live(cbs)|;
            && Track(NewTracking(order), cbs) == Track(NewTracking(order), cbs[..n + 1])
            && Emissions(NewTracking(order), cbs) == Emissions(NewTracking(order), cbs[..n + 1])
            && Track(NewTracking(order), cbs).terminal
  {
    var n := |Live(cbs)|;
    if |cbs| == n + 1 {
      assert cbs[..n + 1] == cbs;
    } else {
      assert cbs[..|cbs| - 1][..n + 1] == cbs[..n + 1];
      assert Live(cbs[..|cbs| - 1]) == Live(cbs);
      EndFreezes(order, cbs[..|cbs| - 1]);
    }
  }

  /** FILLED is emitted exactly when the executions delivered before any cancellation reach the order
      quantity; when the venue never over-executes, exactly when they equal it. */
  lemma FilledIff(order: Order, cbs: seq<Callback>)
    requires order.quantity > 0.0
    ensures EvFilled in Trace(order, cbs) <==> DistinctQty(order, Live(cbs)) >= order.quantity
    ensures DistinctQty(order, cbs) <= order.quantity ==>
              (EvFilled in Trace(order, cbs) <==> DistinctQty(order, Live(cbs)) == order.quantity)
  {
    var live := Live(cbs);
    DistinctQtyMonotone(order, live, cbs);
    LiveTracking(order, live);
    LiveEndsFilled(order, live);
    if live != cbs {
      EndNeverFills(order, cbs);
    }
  }

  /** Nothing from the first cancellation on emits FILLED. */
  lemma EndNeverFills(order: Order, cbs: seq<Callback>)
    requires Live(cbs) != cbs
    ensures EvFilled in Trace(order, cbs) <==> EvFilled in Trace(order, Live(cbs))
  {
    var live, n := Live(cbs), |Live(cbs)|;
    EndFreezes(order, cbs);
    assert cbs[..n + 1][..n] == live && cbs[..n + 1][n] == cbs[n];
    TraceSnoc(order, cbs[..n + 1]);
    var out := Handle(Track(NewTracking(order), live), cbs[n]).1;
    assert EvFilled !in Kinds(out);
  }
}
