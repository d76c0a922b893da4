/** The paper broker as a state machine: submits, cancels, disconnects and single resumptions of its
    lifecycle tasks, in any order. */
module PaperBrokerModel {
  import opened Domain
  import opened EventQueue
  import opened OrderFsm

  /** Where a lifecycle task resumes; `Crashed` is a task whose fill no Fill accepts. */
  datatype Phase = AtAck | AtAccept | AtFill | Over | Crashed

  /** A task keeps the order it was created with. */
  datatype Lifecycle = Lifecycle(order: Order, venueSeq: nat, phase: Phase)

  datatype Paper = Paper(
    connected: bool,
    open: map<OrderId, Order>,
    venueIds: map<OrderId, nat>,
    nextSeq: nat,
    tasks: seq<Lifecycle>,
    puts: seq<QueueItem>)

  const FRESH_PAPER := Paper(false, map[], map[], 1, [], [])

  datatype PaperStep =
    | Connect
    | Disconnect
    | Submit(order: Order)
    | Cancel(id: OrderId)
    | Advance(index: nat, price: real, time: int)

  function Digits(n: nat): (s: string)
    ensures s != ""
  {
    var d := ['0' + (n % 10) as char];
    if n < 10 then d else Digits(n / 10) + d
  }

  function Pad(s: string): (p: string)
    ensures |p| >= 8
    decreases if |s| < 8 then 8 - |s| else 0
  {
    if |s| >= 8 then s else Pad("0" + s)
  }

  function VenueId(n: nat): string {
    "paper-" + Pad(Digits(n))
  }

  /** The whole order at the looked-up price, with a per-share commission. */
  function PaperFill(l: Lifecycle, price: real, commissionPerShare: real, time: int): Fill {
    Fill(l.order.id, VenueId(l.venueSeq) + "-exec-1", l.order.instrument, l.order.side, l.order.quantity,
         price, commissionPerShare * l.order.quantity, time)
  }

  function Stopped(l: Lifecycle): Lifecycle {
    if l.phase == Crashed then l else l.(phase := Over)
  }

  function StopAll(tasks: seq<Lifecycle>): seq<Lifecycle> {
    seq(|tasks|, i requires 0 <= i < |tasks| => Stopped(tasks[i]))
  }

  function Announce(b: Paper, id: OrderId, kind: EventKind, reason: Reason, fill: Option<Fill>): Paper {
    b.(puts := b.puts + [OrderItem(OrderEvent(id, kind, reason, fill))])
  }

  function OnSubmit(b: Paper, o: Order): Paper {
    if !b.connected || o.id in b.open then b
    else
      b.(open := b.open[o.id := o], venueIds := b.venueIds[o.id := b.nextSeq], nextSeq := b.nextSeq + 1,
         tasks := b.tasks + [Lifecycle(o, b.nextSeq, AtAck)])
  }

  function OnCancel(b: Paper, id: OrderId): Paper {
    if id !in b.open then b else Announce(b.(open := b.open - {id}), id, EvCanceled, EngineCancel, None)
  }

  function SetPhase(b: Paper, i: nat, phase: Phase): Paper
    requires i < |b.tasks|
  {
    b.(tasks := b.tasks[i := b.tasks[i].(phase := phase)])
  }

  /** One resumption of a task, up to its next sleep. */
  function OnAdvance(b: Paper, i: nat, price: real, time: int, commissionPerShare: real): Paper {
    if i >= |b.tasks| || b.tasks[i].phase == Over || b.tasks[i].phase == Crashed then b
    else
      var l := b.tasks[i];
      var id := l.order.id;
      if id !in b.open then SetPhase(b, i, Over)
      else if l.phase == AtAck then Announce(SetPhase(b, i, AtAccept), id, EvSubmitted, NoReason, None)
      else if l.phase == AtAccept then
        Announce(SetPhase(b, i, if l.order.orderType == Mkt then AtFill else Over), id, EvAccepted, NoReason, None)
      else
        var f := PaperFill(l, price, commissionPerShare, time);
        var b' := b.(open := b.open - {id});
        if ValidFill(f) then Announce(SetPhase(b', i, Over), id, EvFilled, NoReason, Some(f))
        else SetPhase(b', i, Crashed)
  }

  function NextPaper(b: Paper, s: PaperStep, commissionPerShare: real): Paper {
    match s
    case Connect => b.(connected := true, puts := b.puts + [Notice])
    case Disconnect => b.(connected := false, tasks := StopAll(b.tasks), puts := b.puts + [Notice])
    case Submit(o) => OnSubmit(b, o)
    case Cancel(id) => OnCancel(b, id)
    case Advance(i, price, time) => OnAdvance(b, i, price, time, commissionPerShare)
  }

  function ExecPaper(steps: seq<PaperStep>, cps: real): Paper {
    if steps == [] then FRESH_PAPER else NextPaper(ExecPaper(steps[..|steps| - 1], cps), steps[|steps| - 1], cps)
  }

  /** This submit starts a lifecycle; any other one changes nothing. */
  predicate Opens(b: Paper, s: PaperStep, id: OrderId) {
    s.Submit? && s.order.id == id && b.connected && id !in b.open
  }

  predicate Live(p: Phase) {
    p != Over && p != Crashed
  }

  /** No lifecycle of the id has anything left to do. */
  ghost predicate Quiet(b: Paper, id: OrderId) {
    forall i :: 0 <= i < |b.tasks| && b.tasks[i].order.id == id ==> !Live(b.tasks[i].phase)
  }

  /** A lifecycle of the id starts only when its earlier ones are through. */
  ghost predicate FreshFor(steps: seq<PaperStep>, cps: real, id: OrderId) {
    steps == [] ||
    var init, s := steps[..|steps| - 1], steps[|steps| - 1];
    FreshFor(init, cps, id) && (Opens(ExecPaper(init, cps), s, id) ==> Quiet(ExecPaper(init, cps), id))
  }

  function PaperKinds(b: Paper, id: OrderId): seq<EventKind> {
    EventKinds(Own(b.puts, id))
  }

  // ---- One order's lifeline ------------------------------------------------

  lemma AnnounceKinds(puts: seq<QueueItem>, e: OrderEvent, id: OrderId)
    ensures Own(puts + [OrderItem(e)], id) == if e.id == id then Own(puts, id) + [e] else Own(puts, id)
    ensures EventKinds(Own(puts + [OrderItem(e)], id)) ==
            if e.id == id then EventKinds(Own(puts, id)) + [e.kind] else EventKinds(Own(puts, id))
  {
    OwnConcat(puts, OrderItem(e), id);
  }

  lemma NoticeKinds(puts: seq<QueueItem>, id: OrderId)
    ensures Own(puts + [Notice], id) == Own(puts, id)
  {
    OwnConcat(puts, Notice, id);
  }

  /** A step queues at most one item; CANCELED exactly for a cancel of an open order. */
  lemma PutsStep(b: Paper, s: PaperStep, cps: real)
    ensures var puts' := NextPaper(b, s, cps).puts;
            || (puts' == b.puts && !(s.Cancel? && s.id in b.open))
            || (|puts'| == |b.puts| + 1 && puts' == b.puts + [puts'[|b.puts|]] &&
                if s.Cancel? && s.id in b.open then
                  puts'[|b.puts|] == OrderItem(OrderEvent(s.id, EvCanceled, EngineCancel, None))
                else puts'[|b.puts|].OrderItem? ==> puts'[|b.puts|].event.kind != EvCanceled)
  {
  }

  /** What a step appends to an order's trace: CANCELED exactly on a cancel of the open order. */
  lemma StepKindsOf(b: Paper, s: PaperStep, cps: real, id: OrderId)
    ensures var ks, ks' := PaperKinds(b, id), PaperKinds(NextPaper(b, s, cps), id);
            if s == Cancel(id) && id in b.open then ks' == ks + [EvCanceled]
            else ks' == ks || (|ks'| == |ks| + 1 && ks < ks' && ks'[|ks|] != EvCanceled)
  {
    var b' := NextPaper(b, s, cps);
    PutsStep(b, s, cps);
    if b'.puts != b.puts {
      OwnConcat(b.puts, b'.puts[|b.puts|], id);
    }
  }

  /** How many events of the id had been queued when its latest lifecycle started. */
  function Mark(steps: seq<PaperStep>, cps: real, id: OrderId): (n: nat)
    ensures n <= |PaperKinds(ExecPaper(steps, cps), id)|
  {
    if steps == [] then 0
    else
      var init, s := steps[..|steps| - 1], steps[|steps| - 1];
      var b := ExecPaper(init, cps);
      StepKindsOf(b, s, cps, id);
      if Opens(b, s, id) then |PaperKinds(b, id)| else Mark(init, cps, id)
  }

  /** The events of the latest lifecycle. */
  function Current(steps: seq<PaperStep>, cps: real, id: OrderId): seq<EventKind> {
    PaperKinds(ExecPaper(steps, cps), id)[Mark(steps, cps, id)..]
  }

  /** A prefix of SUBMITTED, ACCEPTED, and then at most one of FILLED or CANCELED. */
  predicate PaperTrace(ks: seq<EventKind>) {
    || ks == [] || ks == [EvSubmitted] || ks == [EvSubmitted, EvAccepted]
    || ks == [EvSubmitted, EvAccepted, EvFilled]
    || ks == [EvCanceled] || ks == [EvSubmitted, EvCanceled] || ks == [EvSubmitted, EvAccepted, EvCanceled]
  }

  predicate Ended(ks: seq<EventKind>) {
    ks != [] && IsTerminalKind(ks[|ks| - 1])
  }

  /** What a task's phase and its order's presence in the book say about the events it led to so far. */
  ghost predicate Lifeline(phase: Phase, isOpen: bool, market: bool, ks: seq<EventKind>) {
    && PaperTrace(ks)
    && (isOpen <==> !Ended(ks) && phase != Crashed)
    && (phase == AtAck ==> ks == [] || ks == [EvCanceled])
    && (phase == AtAccept ==> ks == [EvSubmitted] || ks == [EvSubmitted, EvCanceled])
    && (phase == AtFill ==> market && (ks == [EvSubmitted, EvAccepted] || ks == [EvSubmitted, EvAccepted, EvCanceled]))
    && (phase == Crashed ==> market && ks == [EvSubmitted, EvAccepted])
    && (ks == [EvSubmitted, EvAccepted, EvFilled] ==> market && phase == Over)
  }

  /** The latest task of the id. */
  ghost predicate IsLatest(b: Paper, id: OrderId, i: nat) {
    && i < |b.tasks| && b.tasks[i].order.id == id
    && forall j :: i < j < |b.tasks| ==> b.tasks[j].order.id != id
  }

  ghost predicate TaskOk(b: Paper, id: OrderId, i: nat, n: nat) {
    && n <= |PaperKinds(b, id)| && IsLatest(b, id, i)
    && (forall j :: 0 <= j < i && b.tasks[j].order.id == id ==> !Live(b.tasks[j].phase))
    && id in b.venueIds && b.venueIds[id] == b.tasks[i].venueSeq < b.nextSeq
    && (id in b.open ==> b.open[id] == b.tasks[i].order)
    && Lifeline(b.tasks[i].phase, id in b.open, b.tasks[i].order.orderType == Mkt, PaperKinds(b, id)[n..])
  }

  ghost predicate Untouched(b: Paper, id: OrderId) {
    && id !in b.venueIds && id !in b.open && Own(b.puts, id) == []
    && forall i :: 0 <= i < |b.tasks| ==> b.tasks[i].order.id != id
  }

  /** An id has no trace at all, or a latest task with its lifeline from the `n`-th event on, all its earlier
      tasks through. */
  ghost predicate IdOk(b: Paper, id: OrderId, n: nat) {
    Untouched(b, id) || exists i :: TaskOk(b, id, i, n)
  }

  /** The two states differ in nothing that concerns the id. */
  ghost predicate SameFor(b: Paper, b': Paper, id: OrderId) {
    && Own(b'.puts, id) == Own(b.puts, id) && b.nextSeq <= b'.nextSeq
    && (id in b'.open <==> id in b.open) && (id in b.open ==> b'.open[id] == b.open[id])
    && (id in b'.venueIds <==> id in b.venueIds) && (id in b.venueIds ==> b'.venueIds[id] == b.venueIds[id])
    && |b.tasks| <= |b'.tasks| && (forall j :: |b.tasks| <= j < |b'.tasks| ==> b'.tasks[j].order.id != id)
    && forall j :: 0 <= j < |b.tasks| ==>
         b'.tasks[j].order.id == b.tasks[j].order.id && (b.tasks[j].order.id == id ==> b'.tasks[j] == b.tasks[j])
  }

  lemma SameForKeeps(b: Paper, b': Paper, id: OrderId, n: nat)
    requires IdOk(b, id, n) && SameFor(b, b', id)
    ensures IdOk(b', id, n)
  {
    if i :| TaskOk(b, id, i, n) {
      assert TaskOk(b', id, i, n);
    }
  }

  /** What a step does to the latest task of an id. */
  ghost predicate Touched(b: Paper, b': Paper, id: OrderId, i: nat, phase: Phase, closes: bool, more: seq<EventKind>)
    requires i < |b.tasks|
  {
    && PaperKinds(b', id) == PaperKinds(b, id) + more
    && b'.open == (if closes then b.open - {id} else b.open) && b'.venueIds == b.venueIds && b'.nextSeq == b.nextSeq
    && b'.tasks == b.tasks[i := b.tasks[i].(phase := phase)]
  }

  lemma TouchKeeps(b: Paper, b': Paper, id: OrderId, i: nat, n: nat, phase: Phase, closes: bool, more: seq<EventKind>)
    requires TaskOk(b, id, i, n) && Touched(b, b', id, i, phase, closes, more)
    requires Lifeline(phase, id in b.open && !closes, b.tasks[i].order.orderType == Mkt, PaperKinds(b, id)[n..] + more)
    ensures TaskOk(b', id, i, n)
  {
    assert (PaperKinds(b, id) + more)[n..] == PaperKinds(b, id)[n..] + more;
  }

  lemma LifelineEnds(phase: Phase, market: bool, ks: seq<EventKind>)
    requires Lifeline(phase, true, market, ks)
    ensures Lifeline(phase, false, market, ks + [EvCanceled])
  {
  }

  lemma LifelineMoves(phase: Phase, market: bool, ks: seq<EventKind>)
    requires Lifeline(phase, true, market, ks)
    ensures phase == AtAck ==> Lifeline(AtAccept, true, market, ks + [EvSubmitted])
    ensures phase == AtAccept ==> Lifeline(if market then AtFill else Over, true, market, ks + [EvAccepted])
    ensures phase == AtFill ==>
              Lifeline(Over, false, market, ks + [EvFilled]) && Lifeline(Crashed, false, market, ks + [])
  {
  }

  lemma CancelKeeps(b: Paper, id: OrderId, n: nat, i: nat)
    requires TaskOk(b, id, i, n) && id in b.open
    ensures TaskOk(OnCancel(b, id), id, i, n)
  {
    var l := b.tasks[i];
    LifelineEnds(l.phase, l.order.orderType == Mkt, PaperKinds(b, id)[n..]);
    AnnounceKinds(b.puts, OrderEvent(id, EvCanceled, EngineCancel, None), id);
    assert b.tasks == b.tasks[i := l.(phase := l.phase)];
    TouchKeeps(b, OnCancel(b, id), id, i, n, l.phase, true, [EvCanceled]);
  }

  lemma AdvanceKeeps(b: Paper, id: OrderId, n: nat, i: nat, price: real, time: int, cps: real)
    requires TaskOk(b, id, i, n)
    ensures TaskOk(OnAdvance(b, i, price, time, cps), id, i, n)
  {
    var l, b' := b.tasks[i], OnAdvance(b, i, price, time, cps);
    var market, ks := l.order.orderType == Mkt, PaperKinds(b, id)[n..];
    if Live(l.phase) && id !in b.open {
      assert ks + [] == ks;
      TouchKeeps(b, b', id, i, n, Over, false, []);
    } else if Live(l.phase) {
      LifelineMoves(l.phase, market, ks);
      if l.phase == AtAck {
        AnnounceKinds(b.puts, OrderEvent(id, EvSubmitted, NoReason, None), id);
        TouchKeeps(b, b', id, i, n, AtAccept, false, [EvSubmitted]);
      } else if l.phase == AtAccept {
        AnnounceKinds(b.puts, OrderEvent(id, EvAccepted, NoReason, None), id);
        TouchKeeps(b, b', id, i, n, if market then AtFill else Over, false, [EvAccepted]);
      } else {
        FillKeeps(b, id, n, i, price, time, cps);
      }
    }
  }

  lemma FillKeeps(b: Paper, id: OrderId, n: nat, i: nat, price: real, time: int, cps: real)
    requires TaskOk(b, id, i, n) && b.tasks[i].phase == AtFill && id in b.open
    ensures TaskOk(OnAdvance(b, i, price, time, cps), id, i, n)
  {
    var l, b' := b.tasks[i], OnAdvance(b, i, price, time, cps);
    var f := PaperFill(l, price, cps, time);
    LifelineMoves(l.phase, l.order.orderType == Mkt, PaperKinds(b, id)[n..]);
    if ValidFill(f) {
      AnnounceKinds(b.puts, OrderEvent(id, EvFilled, NoReason, Some(f)), id);
      TouchKeeps(b, b', id, i, n, Over, true, [EvFilled]);
    } else {
      TouchKeeps(b, b', id, i, n, Crashed, true, []);
    }
  }

  lemma AdvanceElsewhere(b: Paper, i: nat, price: real, time: int, cps: real, id: OrderId)
    requires i < |b.tasks| && b.tasks[i].order.id != id
    ensures SameFor(b, OnAdvance(b, i, price, time, cps), id)
  {
    var b', l := OnAdvance(b, i, price, time, cps), b.tasks[i];
    AdvanceTouches(b, i, price, time, cps);
    if b'.puts != b.puts {
      OwnConcat(b.puts, b'.puts[|b.puts|], id);
    }
  }

  /** A resumption changes its own task's phase, takes at most its own order off the book, and queues at most
      an event of its own. */
  lemma AdvanceTouches(b: Paper, i: nat, price: real, time: int, cps: real)
    requires i < |b.tasks|
    ensures var b', l := OnAdvance(b, i, price, time, cps), b.tasks[i];
            && b'.tasks == b.tasks[i := l.(phase := b'.tasks[i].phase)]
            && (b'.open == b.open || b'.open == b.open - {l.order.id})
            && b'.venueIds == b.venueIds && b'.nextSeq == b.nextSeq
            && (b'.puts == b.puts || (|b'.puts| == |b.puts| + 1 && b'.puts == b.puts + [b'.puts[|b.puts|]]
                                      && b'.puts[|b.puts|].OrderItem? && b'.puts[|b.puts|].event.id == l.order.id))
  {
  }

  lemma OpeningKeeps(b: Paper, o: Order, n: nat)
    requires IdOk(b, o.id, n) && b.connected && o.id !in b.open && Quiet(b, o.id)
    ensures TaskOk(OnSubmit(b, o), o.id, |b.tasks|, |PaperKinds(b, o.id)|)
  {
    var b' := OnSubmit(b, o);
    assert PaperKinds(b', o.id)[|PaperKinds(b, o.id)|..] == [];
  }

  lemma DisconnectKeeps(b: Paper, id: OrderId, n: nat, i: nat, cps: real)
    requires TaskOk(b, id, i, n)
    ensures TaskOk(NextPaper(b, Disconnect, cps), id, i, n)
  {
    NoticeKinds(b.puts, id);
  }

  /** What a step makes of one id. */
  lemma StepKeeps(b: Paper, s: PaperStep, cps: real, id: OrderId, n: nat)
    requires IdOk(b, id, n) && (Opens(b, s, id) ==> Quiet(b, id))
    ensures IdOk(NextPaper(b, s, cps), id, if Opens(b, s, id) then |PaperKinds(b, id)| else n)
  {
    var b' := NextPaper(b, s, cps);
    if Opens(b, s, id) {
      OpeningKeeps(b, s.order, n);
    } else if Untouched(b, id) {
      UntouchedStays(b, s, cps, id);
    } else {
      var i :| TaskOk(b, id, i, n);
      if s == Cancel(id) && id in b.open {
        CancelKeeps(b, id, n, i);
      } else if s.Advance? && s.index == i {
        AdvanceKeeps(b, id, n, i, s.price, s.time, cps);
      } else if s.Disconnect? {
        DisconnectKeeps(b, id, n, i, cps);
      } else {
        StepElsewhere(b, s, cps, id, i, n);
        SameForKeeps(b, b', id, n);
      }
    }
  }

  lemma StepElsewhere(b: Paper, s: PaperStep, cps: real, id: OrderId, i: nat, n: nat)
    requires TaskOk(b, id, i, n) && !Opens(b, s, id) && !s.Disconnect?
    requires !(s == Cancel(id) && id in b.open) && !(s.Advance? && s.index == i)
    ensures SameFor(b, NextPaper(b, s, cps), id)
  {
    match s {
      case Connect => NoticeKinds(b.puts, id);
      case Cancel(other) => AnnounceKinds(b.puts, OrderEvent(other, EvCanceled, EngineCancel, None), id);
      case Advance(k, price, time) =>
        if k < |b.tasks| && b.tasks[k].order.id != id { AdvanceElsewhere(b, k, price, time, cps, id); }
      case _ =>
    }
  }

  lemma UntouchedStays(b: Paper, s: PaperStep, cps: real, id: OrderId)
    requires Untouched(b, id) && !Opens(b, s, id)
    ensures Untouched(NextPaper(b, s, cps), id)
  {
    match s {
      case Connect => NoticeKinds(b.puts, id);
      case Disconnect => NoticeKinds(b.puts, id);
      case Cancel(other) => AnnounceKinds(b.puts, OrderEvent(other, EvCanceled, EngineCancel, None), id);
      case Advance(k, price, time) => if k < |b.tasks| { AdvanceElsewhere(b, k, price, time, cps, id); }
      case _ =>
    }
  }

  /** In every run whose lifecycles of an id do not overlap, the id keeps its lifeline; nothing is asked of
      any other id. */
  lemma {:induction false} PaperRunKeeps(steps: seq<PaperStep>, cps: real, id: OrderId)
    requires FreshFor(steps, cps, id)
    ensures IdOk(ExecPaper(steps, cps), id, Mark(steps, cps, id))
  {
    if steps == [] {
      assert Untouched(FRESH_PAPER, id);
    } else {
      var init, s := steps[..|steps| - 1], steps[|steps| - 1];
      PaperRunKeeps(init, cps, id);
      StepKeeps(ExecPaper(init, cps), s, cps, id, Mark(init, cps, id));
    }
  }
}
