/** The declared order state machine: a constant transition table and what its runs look like. */
module OrderFsm {
  import opened Domain

  datatype Trigger =
    | SubmitCall | WireAck | WireReject | Accept | Reject
    | PartialFillTrigger | FillTrigger | CancelTrigger | Expire

  /** The table: next state and emitted event kind; `None` is an illegal transition. */
  function Transition(s: OrderState, t: Trigger): Option<(OrderState, Option<EventKind>)> {
    match (s, t)
    case (Initialized, SubmitCall) => Some((SubmitPending, None))
    case (SubmitPending, WireAck) => Some((Submitted, Some(EvSubmitted)))
    case (SubmitPending, WireReject) => Some((Rejected, Some(EvRejected)))
    case (Submitted, Accept) => Some((Accepted, Some(EvAccepted)))
    case (Submitted, Reject) => Some((Rejected, Some(EvRejected)))
    case (Submitted, CancelTrigger) => Some((Canceled, Some(EvCanceled)))
    case (Accepted, PartialFillTrigger) => Some((PartiallyFilled, Some(EvPartialFill)))
    case (Accepted, FillTrigger) => Some((Filled, Some(EvFilled)))
    case (Accepted, CancelTrigger) => Some((Canceled, Some(EvCanceled)))
    case (Accepted, Expire) => Some((Expired, Some(EvExpired)))
    case (PartiallyFilled, PartialFillTrigger) => Some((PartiallyFilled, Some(EvPartialFill)))
    case (PartiallyFilled, FillTrigger) => Some((Filled, Some(EvFilled)))
    case (PartiallyFilled, CancelTrigger) => Some((Canceled, Some(EvCanceled)))
    case (PartiallyFilled, Expire) => Some((Expired, Some(EvExpired)))
    case _ => None
  }

  predicate IsTerminal(s: OrderState) {
    s in {Filled, Canceled, Rejected, Expired}
  }

  /** Feed triggers to a submitted order: the state reached and the events emitted,
      or `None` as soon as one transition is illegal. */
  ghost function Drive(ts: seq<Trigger>): Option<(OrderState, seq<EventKind>)> {
    if ts == [] then Some((SubmitPending, []))
    else
      match Drive(ts[..|ts| - 1])
      case None => None
      case Some((s, kinds)) =>
        match Transition(s, ts[|ts| - 1])
        case Some((s', Some(k))) => Some((s', kinds + [k]))
        case _ => None
  }

  /** The events read off some legal run starting in SUBMIT_PENDING. */
  ghost predicate IsRun(kinds: seq<EventKind>) {
    exists ts :: Drive(ts).Some? && Drive(ts).value.1 == kinds
  }

  /** The only trigger that can emit `k` from `s`, if any does. */
  function TriggerFor(s: OrderState, k: EventKind): Trigger {
    match k
    case EvSubmitted => WireAck
    case EvAccepted => Accept
    case EvPartialFill => PartialFillTrigger
    case EvFilled => FillTrigger
    case EvCanceled => CancelTrigger
    case EvRejected => if s == SubmitPending then WireReject else Reject
    case EvExpired => Expire
  }

  /** The state after observing `kinds`, when some run emits them. */
  function After(kinds: seq<EventKind>): Option<OrderState> {
    if kinds == [] then Some(SubmitPending)
    else
      var k := kinds[|kinds| - 1];
      match After(kinds[..|kinds| - 1])
      case None => None
      case Some(s) =>
        match Transition(s, TriggerFor(s, k))
        case Some((s', Some(k'))) => Some(s')
        case _ => None
  }

  /** Terminal states are exactly those with no way out. */
  lemma TerminalIffStuck(s: OrderState)
    ensures IsTerminal(s) <==> forall t :: Transition(s, t) == None
  {
    assert Transition(Initialized, SubmitCall).Some? && Transition(SubmitPending, WireAck).Some?;
    assert Transition(Submitted, Accept).Some? && Transition(Accepted, Expire).Some?;
    assert Transition(PartiallyFilled, Expire).Some?;
  }

  /** Observing event kinds loses nothing: the state after a run is determined by its events. */
  lemma {:induction false} DriveDeterminesAfter(ts: seq<Trigger>)
    requires Drive(ts).Some?
    ensures After(Drive(ts).value.1) == Some(Drive(ts).value.0)
  {
    if ts != [] {
      DriveDeterminesAfter(ts[..|ts| - 1]);
      var (s, kinds) := Drive(ts[..|ts| - 1]).value;
      var kinds' := Drive(ts).value.1;
      assert kinds'[..|kinds'| - 1] == kinds;
    }
  }

  lemma {:induction false} AfterHasRun(kinds: seq<EventKind>) returns (ts: seq<Trigger>)
    requires After(kinds).Some?
    ensures Drive(ts) == Some((After(kinds).value, kinds))
  {
    if kinds == [] {
      ts := [];
    } else {
      var init, k := kinds[..|kinds| - 1], kinds[|kinds| - 1];
      var ts0 := AfterHasRun(init);
      ts := ts0 + [TriggerFor(After(init).value, k)];
      assert ts[..|ts| - 1] == ts0;
      assert init + [k] == kinds;
    }
  }

  /** An event trace is legal exactly when `After` accepts it. */
  lemma RunIffAfter(kinds: seq<EventKind>)
    ensures IsRun(kinds) <==> After(kinds).Some?
  {
    if IsRun(kinds) {
      var ts :| Drive(ts).Some? && Drive(ts).value.1 == kinds;
      DriveDeterminesAfter(ts);
    }
    if After(kinds).Some? {
      var ts := AfterHasRun(kinds);
    }
  }

  /** The legal traces, spelled out: nothing, a lone REJECTED, or SUBMITTED followed by nothing, by REJECTED, by
      CANCELED, or by ACCEPTED, any number of partial fills, and at most one of FILLED, CANCELED and EXPIRED. */
  predicate LegalTrace(ks: seq<EventKind>) {
    || ks == [] || ks == [EvRejected] || ks == [EvSubmitted]
    || ks == [EvSubmitted, EvRejected] || ks == [EvSubmitted, EvCanceled]
    || (|ks| >= 2 && ks[0] == EvSubmitted && ks[1] == EvAccepted
        && (forall i :: 2 <= i < |ks| - 1 ==> ks[i] == EvPartialFill)
        && (|ks| > 2 ==> ks[|ks| - 1] in {EvPartialFill, EvFilled, EvCanceled, EvExpired}))
  }

  /** The state a last event leaves the machine in. */
  predicate Leaves(k: EventKind, s: OrderState) {
    && (k == EvSubmitted <==> s == Submitted) && (k == EvAccepted <==> s == Accepted)
    && (k == EvPartialFill <==> s == PartiallyFilled) && (k == EvFilled <==> s == Filled)
    && (k == EvCanceled <==> s == Canceled) && (k == EvRejected <==> s == Rejected)
    && (k == EvExpired <==> s == Expired)
  }

  /** What may follow what, and where it leads. */
  lemma StepLeaves(last: Option<EventKind>, s: OrderState, k: EventKind)
    requires if last.None? then s == SubmitPending else Leaves(last.value, s)
    ensures var next := Transition(s, TriggerFor(s, k));
            && (next.Some? <==> MayFollow(last, k))
            && (next.Some? ==> Leaves(k, next.value.0))
  {
  }

  predicate MayFollow(last: Option<EventKind>, k: EventKind) {
    match last
    case None => k in {EvSubmitted, EvRejected}
    case Some(EvSubmitted) => k in {EvAccepted, EvRejected, EvCanceled}
    case Some(l) => l in {EvAccepted, EvPartialFill} && k in {EvPartialFill, EvFilled, EvCanceled, EvExpired}
  }

  lemma {:induction false} AfterIffLegal(ks: seq<EventKind>)
    ensures After(ks).Some? <==> LegalTrace(ks)
    ensures LegalTrace(ks) && ks != [] ==> Leaves(ks[|ks| - 1], After(ks).value)
  {
    if ks != [] {
      var init, k := ks[..|ks| - 1], ks[|ks| - 1];
      AfterIffLegal(init);
      AfterSnoc(init, k);
      assert ks == init + [k];
      LegalSnoc(init, k);
      if After(init).Some? {
        StepLeaves(if init == [] then None else Some(init[|init| - 1]), After(init).value, k);
      }
    }
  }

  lemma LegalSnoc(ks: seq<EventKind>, k: EventKind)
    ensures LegalTrace(ks + [k]) <==>
            LegalTrace(ks) && MayFollow(if ks == [] then None else Some(ks[|ks| - 1]), k)
  {
    var all := ks + [k];
    assert all[..|ks|] == ks && all[|ks|] == k;
    if |ks| >= 2 {
      assert all[0] == ks[0] && all[1] == ks[1];
      assert ks == [ks[0], ks[1]] || |ks| > 2;
      if LegalTrace(all) {
        assert forall i :: 2 <= i < |ks| ==> all[i] == ks[i];
      }
    } else if |ks| == 1 {
      assert ks == [ks[0]] && all == [ks[0], k];
    } else {
      assert all == [k];
    }
  }

  /** The runs of the machine are the legal traces, and its state is the one the last event names. */
  lemma RunIffLegal(ks: seq<EventKind>)
    ensures IsRun(ks) <==> LegalTrace(ks)
  {
    RunIffAfter(ks);
    AfterIffLegal(ks);
  }

  lemma AfterSnoc(kinds: seq<EventKind>, k: EventKind)
    ensures After(kinds + [k]) ==
            if After(kinds).Some? && Transition(After(kinds).value, TriggerFor(After(kinds).value, k)).Some?
            then Some(Transition(After(kinds).value, TriggerFor(After(kinds).value, k)).value.0)
            else None
  {
    var all := kinds + [k];
    assert all[..|all| - 1] == kinds && all[|all| - 1] == k;
  }

  /** Legality is prefix-closed. */
  lemma {:induction false} AfterPrefix(a: seq<EventKind>, b: seq<EventKind>)
    requires After(a + b).Some?
    ensures After(a).Some?
  {
    if b == [] {
      assert a + b == a;
    } else {
      var init := b[..|b| - 1];
      assert (a + b)[..|a + b| - 1] == a + init;
      AfterPrefix(a, init);
    }
  }
}
