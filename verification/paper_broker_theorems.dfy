/** Main results on runs of the paper broker. */
module PaperBrokerTheorems {
  import opened Domain
  import opened EventQueue
  import opened OrderFsm
  import opened PaperBrokerModel

  // ---- Traces and the book -------------------------------------------------

  /** The fill of the id's latest lifecycle raised. */
  ghost predicate FillCrashed(b: Paper, id: OrderId) {
    exists i: nat :: IsLatest(b, id, i) && b.tasks[i].phase == Crashed
  }

  /** Since the latest lifecycle started, some cancel reached the open order before its SUBMITTED. */
  ghost predicate CancelledEarly(steps: seq<PaperStep>, cps: real, id: OrderId) {
    steps != [] &&
    var init, s := steps[..|steps| - 1], steps[|steps| - 1];
    && !Opens(ExecPaper(init, cps), s, id)
    && (CancelledEarly(init, cps, id)
        || (s == Cancel(id) && id in ExecPaper(init, cps).open && Current(init, cps, id) == []))
  }

  /** The lifeline of an id: its latest trace is a prefix of SUBMITTED, ACCEPTED followed by at most one of
      FILLED or CANCELED, and the order is in the book exactly while it was submitted, has not ended, and
      its fill did not raise. */
  ghost predicate Sound(b: Paper, id: OrderId, ks: seq<EventKind>) {
    && PaperTrace(ks)
    && (id in b.open <==> id in b.venueIds && !Ended(ks) && !FillCrashed(b, id))
  }

  /** Whatever the interleaving of submits, cancels, disconnects and task resumptions: as long as the
      lifecycles of an id do not overlap, each has a sound lifeline, which is a run of the declared machine
      exactly when no cancel came before the acknowledgement. */
  lemma PaperOrderTrace(steps: seq<PaperStep>, cps: real, id: OrderId)
    requires FreshFor(steps, cps, id)
    ensures Sound(ExecPaper(steps, cps), id, Current(steps, cps, id))
    ensures IsRun(Current(steps, cps, id)) <==> !CancelledEarly(steps, cps, id)
  {
    PaperRunKeeps(steps, cps, id);
    CancelledEarlyIff(steps, cps, id);
    IdSound(ExecPaper(steps, cps), id, Mark(steps, cps, id));
    PaperTraceIsRun(Current(steps, cps, id));
  }

  lemma IdSound(b: Paper, id: OrderId, n: nat)
    requires IdOk(b, id, n) && n <= |PaperKinds(b, id)|
    ensures Sound(b, id, PaperKinds(b, id)[n..])
  {
    if i :| TaskOk(b, id, i, n) {
      LatestIsOne(b, id, i);
    }
  }

  lemma LatestIsOne(b: Paper, id: OrderId, i: nat)
    requires IsLatest(b, id, i)
    ensures FillCrashed(b, id) <==> b.tasks[i].phase == Crashed
  {
  }

  lemma PaperTraceIsRun(ks: seq<EventKind>)
    requires PaperTrace(ks)
    ensures IsRun(ks) <==> ks != [EvCanceled]
  {
    RunIffLegal(ks);
  }

  lemma {:induction false} CancelledEarlyIff(steps: seq<PaperStep>, cps: real, id: OrderId)
    requires FreshFor(steps, cps, id)
    ensures CancelledEarly(steps, cps, id) <==> Current(steps, cps, id) == [EvCanceled]
  {
    if steps == [] {
      assert PaperKinds(FRESH_PAPER, id) == [];
    } else {
      var init, s := steps[..|steps| - 1], steps[|steps| - 1];
      var b := ExecPaper(init, cps);
      CancelledEarlyIff(init, cps, id);
      StepKindsOf(b, s, cps, id);
      if !Opens(b, s, id) {
        PaperRunKeeps(steps, cps, id);
        IdSound(ExecPaper(steps, cps), id, Mark(steps, cps, id));
        EarlyStep(PaperKinds(b, id), PaperKinds(ExecPaper(steps, cps), id), Mark(init, cps, id));
      } else {
        SubmitIsSilent(b, s.order);
      }
    }
  }

  lemma SubmitIsSilent(b: Paper, o: Order)
    ensures OnSubmit(b, o).puts == b.puts
  {
  }

  /** Once a trace is the lone CANCELED it stays so, and it becomes so only from the empty trace. */
  lemma EarlyStep(ks: seq<EventKind>, ks': seq<EventKind>, n: nat)
    requires ks <= ks' && |ks'| <= |ks| + 1 && n <= |ks| && PaperTrace(ks'[n..])
    ensures ks'[n..] == [EvCanceled] <==> ks[n..] == [EvCanceled] || (ks[n..] == [] && ks' == ks + [EvCanceled])
  {
    if ks[n..] == [EvCanceled] {
      assert ks'[n..][0] == ks[n..][0];
    }
    if ks'[n..] == [EvCanceled] && ks[n..] == [] {
      assert ks' == ks'[..n] + ks'[n..];
    }
  }

  // ---- Exactly when an id may be used again ---------------------------------

  ghost predicate NoSubmit(steps: seq<PaperStep>, id: OrderId) {
    forall s :: s in steps ==> !(s.Submit? && s.order.id == id)
  }

  lemma ExecPaperSnoc(steps: seq<PaperStep>, s: PaperStep, cps: real)
    ensures ExecPaper(steps + [s], cps) == NextPaper(ExecPaper(steps, cps), s, cps)
  {
    var all := steps + [s];
    assert all[..|all| - 1] == steps;
  }

  lemma MarkSnoc(steps: seq<PaperStep>, s: PaperStep, cps: real, id: OrderId)
    ensures Mark(steps + [s], cps, id) ==
            if Opens(ExecPaper(steps, cps), s, id) then |PaperKinds(ExecPaper(steps, cps), id)|
            else Mark(steps, cps, id)
    ensures FreshFor(steps + [s], cps, id) <==>
            FreshFor(steps, cps, id) && (Opens(ExecPaper(steps, cps), s, id) ==> Quiet(ExecPaper(steps, cps), id))
  {
    var all := steps + [s];
    assert all[..|all| - 1] == steps;
  }

  lemma {:induction false} FreshOn(steps: seq<PaperStep>, rest: seq<PaperStep>, cps: real, id: OrderId)
    requires FreshFor(steps, cps, id) && NoSubmit(rest, id)
    ensures FreshFor(steps + rest, cps, id)
  {
    if rest == [] {
      assert steps + rest == steps;
    } else {
      var init, s := rest[..|rest| - 1], rest[|rest| - 1];
      assert s in rest && steps + rest == steps + init + [s];
      FreshOn(steps, init, cps, id);
      MarkSnoc(steps + init, s, cps, id);
    }
  }

  /** After these steps the id's latest lifeline is sound. */
  ghost predicate SoundAfter(steps: seq<PaperStep>, cps: real, id: OrderId) {
    Sound(ExecPaper(steps, cps), id, Current(steps, cps, id))
  }

  /** However the run goes on, without submitting the id a further time. */
  ghost predicate SoundEver(steps: seq<PaperStep>, cps: real, id: OrderId) {
    forall rest :: NoSubmit(rest, id) ==> SoundAfter(steps + rest, cps, id)
  }

  /** An order that ended may be submitted again under its id exactly when no lifecycle of the id is left to
      resume: then its new lifeline is sound in every continuation, and otherwise some continuation breaks it. */
  lemma ReuseIff(steps: seq<PaperStep>, cps: real, o: Order)
    requires FreshFor(steps, cps, o.id) && Opens(ExecPaper(steps, cps), Submit(o), o.id)
    ensures SoundEver(steps + [Submit(o)], cps, o.id) <==> Quiet(ExecPaper(steps, cps), o.id)
  {
    var b, again := ExecPaper(steps, cps), steps + [Submit(o)];
    MarkSnoc(steps, Submit(o), cps, o.id);
    if Quiet(b, o.id) {
      forall rest | NoSubmit(rest, o.id)
        ensures SoundAfter(again + rest, cps, o.id)
      {
        FreshOn(again, rest, cps, o.id);
        PaperOrderTrace(again + rest, cps, o.id);
      }
    } else {
      var i :| 0 <= i < |b.tasks| && b.tasks[i].order.id == o.id && Live(b.tasks[i].phase);
      OverlapBreaks(steps, cps, o, i);
    }
  }

  lemma OverlapBreaks(steps: seq<PaperStep>, cps: real, o: Order, i: nat)
    requires var b := ExecPaper(steps, cps);
             && Opens(b, Submit(o), o.id) && i < |b.tasks| && b.tasks[i].order.id == o.id && Live(b.tasks[i].phase)
    ensures !SoundEver(steps + [Submit(o)], cps, o.id)
  {
    var b, again := ExecPaper(steps, cps), steps + [Submit(o)];
    var resume := Advance(i, 1.0, 0);
    ExecPaperSnoc(steps, Submit(o), cps);
    MarkSnoc(steps, Submit(o), cps, o.id);
    ExecPaperSnoc(again, resume, cps);
    MarkSnoc(again, resume, cps, o.id);
    assert NoSubmit([resume], o.id);
    if b.tasks[i].phase == AtAck {
      var newer := Advance(|b.tasks|, 1.0, 0);
      ExecPaperSnoc(again + [resume], newer, cps);
      MarkSnoc(again + [resume], newer, cps, o.id);
      SecondAck(b, o, i, cps);
      assert again + [resume] + [newer] == again + [resume, newer] && NoSubmit([resume, newer], o.id);
      assert !SoundAfter(again + [resume, newer], cps, o.id);
    } else {
      if b.tasks[i].phase == AtAccept {
        EarlyAccept(b, o, i, cps);
      } else {
        EarlyFill(b, o, i, cps);
      }
      assert !SoundAfter(again + [resume], cps, o.id);
    }
  }

  /** The trace since `b` breaks the lifeline. */
  ghost predicate BrokenSince(b: Paper, b': Paper, id: OrderId) {
    && |PaperKinds(b, id)| <= |PaperKinds(b', id)|
    && !Sound(b', id, PaperKinds(b', id)[|PaperKinds(b, id)|..])
  }

  /** Both the old and the new task announce the order. */
  lemma SecondAck(b: Paper, o: Order, i: nat, cps: real)
    requires Opens(b, Submit(o), o.id) && i < |b.tasks| && b.tasks[i].order.id == o.id && b.tasks[i].phase == AtAck
    ensures BrokenSince(b, OnAdvance(OnAdvance(OnSubmit(b, o), i, 1.0, 0, cps), |b.tasks|, 1.0, 0, cps), o.id)
  {
    var b1 := OnSubmit(b, o);
    var b2 := OnAdvance(b1, i, 1.0, 0, cps);
    var b3 := OnAdvance(b2, |b.tasks|, 1.0, 0, cps);
    AnnounceKinds(b1.puts, OrderEvent(o.id, EvSubmitted, NoReason, None), o.id);
    AnnounceKinds(b2.puts, OrderEvent(o.id, EvSubmitted, NoReason, None), o.id);
    assert PaperKinds(b3, o.id)[|PaperKinds(b, o.id)|..] == [EvSubmitted, EvSubmitted];
  }

  /** The old task has the new order accepted before it is announced. */
  lemma EarlyAccept(b: Paper, o: Order, i: nat, cps: real)
    requires Opens(b, Submit(o), o.id) && i < |b.tasks| && b.tasks[i].order.id == o.id && b.tasks[i].phase == AtAccept
    ensures BrokenSince(b, OnAdvance(OnSubmit(b, o), i, 1.0, 0, cps), o.id)
  {
    var b1 := OnSubmit(b, o);
    var b2 := OnAdvance(b1, i, 1.0, 0, cps);
    AnnounceKinds(b1.puts, OrderEvent(o.id, EvAccepted, NoReason, None), o.id);
    assert PaperKinds(b2, o.id)[|PaperKinds(b, o.id)|..] == [EvAccepted];
  }

  /** The old task fills or crashes in the name of the new order. */
  lemma EarlyFill(b: Paper, o: Order, i: nat, cps: real)
    requires Opens(b, Submit(o), o.id) && i < |b.tasks| && b.tasks[i].order.id == o.id && b.tasks[i].phase == AtFill
    ensures BrokenSince(b, OnAdvance(OnSubmit(b, o), i, 1.0, 0, cps), o.id)
  {
    var b1 := OnSubmit(b, o);
    var b2 := OnAdvance(b1, i, 1.0, 0, cps);
    var f := PaperFill(b1.tasks[i], 1.0, cps, 0);
    if ValidFill(f) {
      AnnounceKinds(b1.puts, OrderEvent(o.id, EvFilled, NoReason, Some(f)), o.id);
      assert PaperKinds(b2, o.id)[|PaperKinds(b, o.id)|..] == [EvFilled];
    } else {
      assert IsLatest(b2, o.id, |b.tasks|);
      LatestIsOne(b2, o.id, |b.tasks|);
    }
  }

  // ---- When the book is exactly the unended orders --------------------------

  ghost predicate AllFresh(steps: seq<PaperStep>, cps: real) {
    forall id :: FreshFor(steps, cps, id)
  }

  ghost predicate BookExactAt(steps: seq<PaperStep>, cps: real, id: OrderId) {
    var b := ExecPaper(steps, cps);
    id in b.open <==> id in b.venueIds && !Ended(Current(steps, cps, id))
  }

  ghost predicate BookExact(steps: seq<PaperStep>, cps: real) {
    forall id :: BookExactAt(steps, cps, id)
  }

  /** No order's latest fill raised. */
  ghost predicate NoneHangs(b: Paper) {
    forall id :: !FillCrashed(b, id)
  }

  ghost predicate NoneCrashed(b: Paper) {
    forall i :: 0 <= i < |b.tasks| ==> b.tasks[i].phase != Crashed
  }

  /** `_open_orders` is exactly the submitted orders whose latest lifecycle has not ended, if and only if no
      latest fill raised. */
  lemma BookExactIff(steps: seq<PaperStep>, cps: real)
    requires AllFresh(steps, cps)
    ensures BookExact(steps, cps) <==> NoneHangs(ExecPaper(steps, cps))
  {
    forall id
      ensures BookExactAt(steps, cps, id) <==> !FillCrashed(ExecPaper(steps, cps), id)
    {
      BookExactFor(steps, cps, id);
    }
  }

  lemma BookExactFor(steps: seq<PaperStep>, cps: real, id: OrderId)
    requires FreshFor(steps, cps, id)
    ensures BookExactAt(steps, cps, id) <==> !FillCrashed(ExecPaper(steps, cps), id)
  {
    PaperOrderTrace(steps, cps, id);
    PaperRunKeeps(steps, cps, id);
    if FillCrashed(ExecPaper(steps, cps), id) {
      CrashedUnended(ExecPaper(steps, cps), id, Mark(steps, cps, id));
    }
  }

  lemma CrashedUnended(b: Paper, id: OrderId, n: nat)
    requires IdOk(b, id, n) && n <= |PaperKinds(b, id)| && FillCrashed(b, id)
    ensures id in b.venueIds && !Ended(PaperKinds(b, id)[n..])
  {
    var i: nat :| TaskOk(b, id, i, n);
    LatestIsOne(b, id, i);
  }

  /** What the price lookup and the configuration owe the broker. */
  ghost predicate Priceable(steps: seq<PaperStep>, cps: real) {
    && cps >= 0.0
    && forall s :: s in steps ==> (s.Submit? ==> s.order.quantity > 0.0) && (s.Advance? ==> s.price > 0.0)
  }

  lemma {:induction false} PriceableNeverCrashes(steps: seq<PaperStep>, cps: real)
    requires Priceable(steps, cps)
    ensures NoneCrashed(ExecPaper(steps, cps))
    ensures forall l :: l in ExecPaper(steps, cps).tasks ==> l.order.quantity > 0.0
  {
    if steps != [] {
      var init, s := steps[..|steps| - 1], steps[|steps| - 1];
      assert s in steps;
      PriceableNeverCrashes(init, cps);
      var b := ExecPaper(init, cps);
      match s {
        case Advance(i, price, time) =>
          if i < |b.tasks| {
            var l := b.tasks[i];
            assert l in b.tasks && cps * l.order.quantity >= 0.0;
            AdvanceTasks(b, i, price, time, cps);
          }
        case Disconnect => StopTasks(b);
        case _ =>
      }
    }
  }

  lemma StopTasks(b: Paper)
    requires NoneCrashed(b) && forall l :: l in b.tasks ==> l.order.quantity > 0.0
    ensures forall i :: 0 <= i < |b.tasks| ==> StopAll(b.tasks)[i].phase != Crashed
    ensures forall l :: l in StopAll(b.tasks) ==> l.order.quantity > 0.0
  {
    assert forall i :: 0 <= i < |b.tasks| ==> b.tasks[i] in b.tasks;
  }

  lemma AdvanceTasks(b: Paper, i: nat, price: real, time: int, cps: real)
    requires i < |b.tasks| && price > 0.0 && b.tasks[i].order.quantity > 0.0 && cps * b.tasks[i].order.quantity >= 0.0
    requires NoneCrashed(b) && forall l :: l in b.tasks ==> l.order.quantity > 0.0
    ensures var b' := OnAdvance(b, i, price, time, cps);
            NoneCrashed(b') && forall l :: l in b'.tasks ==> l.order.quantity > 0.0
  {
    var b' := OnAdvance(b, i, price, time, cps);
    assert b'.tasks == b.tasks || b'.tasks == b.tasks[i := b.tasks[i].(phase := b'.tasks[i].phase)];
    assert ValidFill(PaperFill(b.tasks[i], price, cps, time));
  }

  // ---- Fills ---------------------------------------------------------------

  /** A fill of the lifecycle's order as submitted, whole, at the per-share commission, under the venue's id. */
  ghost predicate FillsTask(l: Lifecycle, f: Fill, cps: real) {
    && f.orderId == l.order.id && f.instrument == l.order.instrument && f.side == l.order.side
    && f.quantity == l.order.quantity && f.commission == cps * l.order.quantity
    && f.execId == VenueId(l.venueSeq) + "-exec-1"
  }

  /** A FILLED event fills some submitted order of that id, at the price and time its lifecycle was resumed with. */
  ghost predicate FillsWhole(steps: seq<PaperStep>, b: Paper, e: OrderEvent, cps: real) {
    && e.fill.Some? && ValidFill(e.fill.value) && e.fill.value.orderId == e.id
    && exists i: nat :: i < |b.tasks| && FillsTask(b.tasks[i], e.fill.value, cps) &&
                        Advance(i, e.fill.value.price, e.fill.value.time) in steps
  }

  ghost predicate AllFillWhole(steps: seq<PaperStep>, b: Paper, cps: real) {
    forall q :: q in b.puts && q.OrderItem? && q.event.kind == EvFilled ==> FillsWhole(steps, b, q.event, cps)
  }

  /** Fills carry the order as submitted: its lifecycle captured it, whatever the book holds later. */
  lemma {:induction false} FilledAsSubmitted(steps: seq<PaperStep>, cps: real)
    ensures AllFillWhole(steps, ExecPaper(steps, cps), cps)
  {
    if steps != [] {
      var init, s := steps[..|steps| - 1], steps[|steps| - 1];
      FilledAsSubmitted(init, cps);
      var b, b' := ExecPaper(init, cps), ExecPaper(steps, cps);
      assert steps == init + [s];
      forall q | q in b'.puts && q.OrderItem? && q.event.kind == EvFilled
        ensures FillsWhole(steps, b', q.event, cps)
      {
        if q in b.puts {
          FillStays(init, b, s, q.event, cps);
        } else {
          NewFill(b, s, q, cps);
          TasksKeepOrders(b, s, cps, s.index);
        }
      }
    }
  }

  /** Only a resumption queues FILLED, with its own price and time. */
  lemma NewFill(b: Paper, s: PaperStep, q: QueueItem, cps: real)
    requires q in NextPaper(b, s, cps).puts && q !in b.puts && q.OrderItem? && q.event.kind == EvFilled
    ensures s.Advance? && s.index < |b.tasks| && b.tasks[s.index].phase == AtFill && q.event.fill.Some?
    ensures var f := q.event.fill.value;
            && ValidFill(f) && f.orderId == q.event.id && f.price == s.price && f.time == s.time
            && FillsTask(b.tasks[s.index], f, cps) && NextPaper(b, s, cps).tasks[s.index].phase == Over
            && NextPaper(b, s, cps).puts == b.puts + [q]
  {
    PutsStep(b, s, cps);
  }

  lemma FillStays(init: seq<PaperStep>, b: Paper, s: PaperStep, e: OrderEvent, cps: real)
    requires FillsWhole(init, b, e, cps)
    ensures FillsWhole(init + [s], NextPaper(b, s, cps), e, cps)
  {
    var i: nat :| i < |b.tasks| && FillsTask(b.tasks[i], e.fill.value, cps) &&
                  Advance(i, e.fill.value.price, e.fill.value.time) in init;
    TaskStillFills(b, s, i, e.fill.value, cps);
    assert Advance(i, e.fill.value.price, e.fill.value.time) in init + [s];
  }

  lemma TaskStillFills(b: Paper, s: PaperStep, i: nat, f: Fill, cps: real)
    requires i < |b.tasks| && FillsTask(b.tasks[i], f, cps)
    ensures i < |NextPaper(b, s, cps).tasks| && FillsTask(NextPaper(b, s, cps).tasks[i], f, cps)
  {
    TasksKeepOrders(b, s, cps, i);
  }

  lemma TasksKeepOrders(b: Paper, s: PaperStep, cps: real, i: nat)
    requires i < |b.tasks|
    ensures var ts' := NextPaper(b, s, cps).tasks;
            |ts'| >= |b.tasks| && ts'[i].order == b.tasks[i].order && ts'[i].venueSeq == b.tasks[i].venueSeq
  {
  }

  // ---- Execution ids ---------------------------------------------------------

  /** The number a string of digits stands for. */
  function Value(s: string): int {
    if s == "" then 0 else 10 * Value(s[..|s| - 1]) + (s[|s| - 1] as int - '0' as int)
  }

  lemma {:induction false} DigitsValue(n: nat)
    ensures Value(Digits(n)) == n
  {
    var d := ['0' + (n % 10) as char];
    if n >= 10 {
      DigitsValue(n / 10);
      assert (Digits(n / 10) + d)[..|Digits(n / 10)|] == Digits(n / 10);
    } else {
      assert d[..0] == "";
    }
  }

  lemma {:induction false} ZeroValue(s: string)
    ensures Value("0" + s) == Value(s)
  {
    if s == "" {
      assert "0" + s == "0" && "0"[..0] == "";
    } else {
      ZeroValue(s[..|s| - 1]);
      assert ("0" + s)[..|s|] == "0" + s[..|s| - 1];
    }
  }

  lemma {:induction false} PadValue(s: string)
    ensures Value(Pad(s)) == Value(s)
    decreases if |s| < 8 then 8 - |s| else 0
  {
    if |s| < 8 {
      ZeroValue(s);
      PadValue("0" + s);
    }
  }

  /** Venue ids of different orders differ. */
  lemma VenueIdsDiffer(m: nat, n: nat)
    ensures VenueId(m) + "-exec-1" == VenueId(n) + "-exec-1" ==> m == n
  {
    DigitsValue(m);
    DigitsValue(n);
    PadValue(Digits(m));
    PadValue(Digits(n));
    var a, b := Pad(Digits(m)), Pad(Digits(n));
    if VenueId(m) + "-exec-1" == VenueId(n) + "-exec-1" {
      assert |a| == |b|;
      assert a == (VenueId(m) + "-exec-1")[6..6 + |a|] && b == (VenueId(n) + "-exec-1")[6..6 + |b|];
    }
  }

  predicate IsFilled(q: QueueItem) {
    q.OrderItem? && q.event.kind == EvFilled && q.event.fill.Some?
  }

  /** Lifecycles have ids of their own, and every FILLED is that of a lifecycle that is over. */
  ghost predicate OwnIds(b: Paper, cps: real) {
    && (forall i :: 0 <= i < |b.tasks| ==> b.tasks[i].venueSeq < b.nextSeq)
    && (forall i, j :: 0 <= i < j < |b.tasks| ==> b.tasks[i].venueSeq != b.tasks[j].venueSeq)
    && (forall q :: q in b.puts && q.OrderItem? && q.event.kind == EvFilled ==> FromOver(b, q, cps))
  }

  ghost predicate FromOver(b: Paper, q: QueueItem, cps: real) {
    IsFilled(q) &&
    exists i: nat :: i < |b.tasks| && b.tasks[i].phase == Over && FillsTask(b.tasks[i], q.event.fill.value, cps)
  }

  ghost predicate NoneTwice(b: Paper) {
    forall i, j :: 0 <= i < j < |b.puts| && IsFilled(b.puts[i]) && IsFilled(b.puts[j]) ==>
      b.puts[i].event.fill.value.execId != b.puts[j].event.fill.value.execId
  }

  /** In every run, reused ids included, no two fills bear the same execution id. */
  lemma {:induction false} NoExecutionTwice(steps: seq<PaperStep>, cps: real)
    ensures OwnIds(ExecPaper(steps, cps), cps) && NoneTwice(ExecPaper(steps, cps))
  {
    if steps != [] {
      var init, s := steps[..|steps| - 1], steps[|steps| - 1];
      NoExecutionTwice(init, cps);
      StepOwnIds(ExecPaper(init, cps), s, cps);
    }
  }

  lemma StepOwnIds(b: Paper, s: PaperStep, cps: real)
    requires OwnIds(b, cps) && NoneTwice(b)
    ensures OwnIds(NextPaper(b, s, cps), cps) && NoneTwice(NextPaper(b, s, cps))
  {
    var b' := NextPaper(b, s, cps);
    SeqsApart(b, s, cps);
    PutsStep(b, s, cps);
    forall q | q in b'.puts && q.OrderItem? && q.event.kind == EvFilled
      ensures FromOver(b', q, cps)
    {
      if q in b.puts {
        OverStays(b, s, q, cps);
      } else {
        NewFill(b, s, q, cps);
        TasksKeepOrders(b, s, cps, s.index);
      }
    }
    if b'.puts != b.puts && IsFilled(b'.puts[|b.puts|]) {
      NewIdIsNew(b, s, cps);
    }
  }

  lemma SeqsApart(b: Paper, s: PaperStep, cps: real)
    requires OwnIds(b, cps)
    ensures var b' := NextPaper(b, s, cps);
            && (forall i :: 0 <= i < |b'.tasks| ==> b'.tasks[i].venueSeq < b'.nextSeq)
            && (forall i, j :: 0 <= i < j < |b'.tasks| ==> b'.tasks[i].venueSeq != b'.tasks[j].venueSeq)
  {
    forall i | 0 <= i < |b.tasks|
      ensures NextPaper(b, s, cps).tasks[i].venueSeq == b.tasks[i].venueSeq
    {
      TasksKeepOrders(b, s, cps, i);
    }
  }

  lemma OverStays(b: Paper, s: PaperStep, q: QueueItem, cps: real)
    requires FromOver(b, q, cps)
    ensures FromOver(NextPaper(b, s, cps), q, cps)
  {
    var i: nat :| i < |b.tasks| && b.tasks[i].phase == Over && FillsTask(b.tasks[i], q.event.fill.value, cps);
    TasksKeepOrders(b, s, cps, i);
    assert NextPaper(b, s, cps).tasks[i].phase == Over;
  }

  /** A FILLED just queued has an id no earlier one has. */
  lemma NewIdIsNew(b: Paper, s: PaperStep, cps: real)
    requires OwnIds(b, cps) && NoneTwice(b)
    requires var puts' := NextPaper(b, s, cps).puts;
             |puts'| == |b.puts| + 1 && puts' == b.puts + [puts'[|b.puts|]] && IsFilled(puts'[|b.puts|])
    ensures NoneTwice(NextPaper(b, s, cps))
  {
    var puts' := NextPaper(b, s, cps).puts;
    var q := puts'[|b.puts|];
    FilledHere(b, s, cps);
    var f := q.event.fill.value;
    forall i | 0 <= i < |b.puts| && IsFilled(b.puts[i])
      ensures b.puts[i].event.fill.value.execId != f.execId
    {
      assert b.puts[i] in b.puts && FromOver(b, b.puts[i], cps);
      var j: nat :| j < |b.tasks| && b.tasks[j].phase == Over && FillsTask(b.tasks[j], b.puts[i].event.fill.value, cps);
      VenueIdsDiffer(b.tasks[j].venueSeq, b.tasks[s.index].venueSeq);
    }
  }

  lemma FilledHere(b: Paper, s: PaperStep, cps: real)
    requires var puts' := NextPaper(b, s, cps).puts;
             |puts'| == |b.puts| + 1 && puts' == b.puts + [puts'[|b.puts|]] && IsFilled(puts'[|b.puts|])
    ensures s.Advance? && s.index < |b.tasks| && b.tasks[s.index].phase == AtFill
    ensures FillsTask(b.tasks[s.index], NextPaper(b, s, cps).puts[|b.puts|].event.fill.value, cps)
  {
  }

  // ---- A reused id -----------------------------------------------------------

  /** An id submitted again after its cancel revives the old task, which announces it after CANCELED. */
  lemma ReusedIdRevivesTask(o: Order, cps: real)
    ensures var steps := [Connect] + [Submit(o)] + [Cancel(o.id)] + [Submit(o)] + [Advance(0, 1.0, 0)];
            && PaperKinds(ExecPaper(steps, cps), o.id) == [EvCanceled, EvSubmitted]
            && !FreshFor(steps, cps, o.id)
  {
    assert ExecPaper([], cps) == FRESH_PAPER;
    ExecPaperSnoc([], Connect, cps);
    assert [] + [Connect] == [Connect];
    ExecPaperSnoc([Connect], Submit(o), cps);
    ExecPaperSnoc([Connect] + [Submit(o)], Cancel(o.id), cps);
    ExecPaperSnoc([Connect] + [Submit(o)] + [Cancel(o.id)], Submit(o), cps);
    ExecPaperSnoc([Connect] + [Submit(o)] + [Cancel(o.id)] + [Submit(o)], Advance(0, 1.0, 0), cps);
    var steps := [Connect] + [Submit(o)] + [Cancel(o.id)] + [Submit(o)] + [Advance(0, 1.0, 0)];
    RevivedTrace(o, cps);
    if FreshFor(steps, cps, o.id) {
      PaperOrderTrace(steps, cps, o.id);
    }
  }

  lemma RevivedTrace(o: Order, cps: real)
    ensures var b := OnSubmit(OnCancel(OnSubmit(NextPaper(FRESH_PAPER, Connect, cps), o), o.id), o);
            PaperKinds(OnAdvance(b, 0, 1.0, 0, cps), o.id) == [EvCanceled, EvSubmitted]
  {
    var b := OnSubmit(OnCancel(OnSubmit(NextPaper(FRESH_PAPER, Connect, cps), o), o.id), o);
    var c, e := OrderEvent(o.id, EvCanceled, EngineCancel, None), OrderEvent(o.id, EvSubmitted, NoReason, None);
    assert b.tasks == [Lifecycle(o, 1, AtAck), Lifecycle(o, 2, AtAck)];
    assert OnAdvance(b, 0, 1.0, 0, cps).puts == [Notice] + [OrderItem(c)] + [OrderItem(e)];
    OwnConcat([], Notice, o.id);
    OwnConcat([Notice], OrderItem(c), o.id);
    OwnConcat([Notice] + [OrderItem(c)], OrderItem(e), o.id);
  }
}
