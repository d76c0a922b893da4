/** What each wire callback makes the broker queue, told by what it queued before: a reference for the handlers
    that knows nothing of their tracking record. */
module OrderResponses {
  import opened Domain
  import opened EventQueue
  import opened OrderTracking
  import opened PriceGrid
  import opened IBBrokerModel
  import opened IBBrokerRuns
  import opened IBBrokerTheorems

  /** No terminal event yet. */
  predicate Unended(ks: seq<EventKind>) {
    EvFilled !in ks && EvCanceled !in ks && EvRejected !in ks && EvExpired !in ks
  }

  /** The most recent log entry with an error code. */
  predicate LastCoded(log: seq<LogEntry>, i: nat) {
    i < |log| && log[i].errorCode != 0 && forall j :: i < j < |log| ==> log[j].errorCode == 0
  }

  /** What a status push appends to a trace. */
  ghost predicate StatusAppends(ks: seq<EventKind>, status: IBStatus, log: seq<LogEntry>, more: seq<Emission>) {
    if !Unended(ks) then more == []
    else
      match status
      case StSubmitted | StPreSubmitted =>
        more == if EvAccepted in ks then [] else [Emission(EvAccepted, None, Some(NoReason))]
      case StCancelled | StApiCancelled =>
        if EvAccepted in ks || forall e :: e in log ==> e.errorCode == 0
        then more == [Emission(EvCanceled, None, Some(EngineCancel))]
        else
          exists i: nat :: LastCoded(log, i) &&
            more == [Emission(EvRejected, None, Some(IbError(log[i].errorCode, log[i].message)))]
      case StInactive => more == [Emission(EvRejected, None, None)]
      case StPendingSubmit | StPendingCancel | StFilled | StOther => more == []
  }

  /** An execution of this id was pushed. */
  ghost predicate Reported(cbs: seq<Callback>, execId: string) {
    exists cb :: cb in cbs && cb.FillPush? && cb.execution.Some? && cb.execution.value.execId == execId
  }

  /** What a fill push appends: nothing for an execution without id or pushed before; else ACCEPTED if it is
      missing, and, if the payload is a fill, that fill, FILLED once the order's quantity is reached. */
  ghost predicate FillAppends(order: Order, cbs: seq<Callback>, es: seq<Emission>, execution: Option<Execution>,
                              commission: Option<real>, more: seq<Emission>) {
    if !Unended(Kinds(es)) || execution.None? || execution.value.execId == "" || Reported(cbs, execution.value.execId)
    then more == []
    else
      var e, c := execution.value, if commission.Some? then commission.value else 0.0;
      var fill := Fill(order.id, e.execId, order.instrument, order.side, e.shares, e.price, c, e.time);
      var kind := if FilledQty(es) + e.shares >= order.quantity then EvFilled else EvPartialFill;
      more == (if EvAccepted in Kinds(es) then [] else [Emission(EvAccepted, None, Some(NoReason))])
            + if e.shares > 0.0 && e.price > 0.0 && c >= 0.0 then [Emission(kind, Some(fill), Some(NoReason))] else []
  }

  ghost predicate Appends(order: Order, cbs: seq<Callback>, es: seq<Emission>, cb: Callback, more: seq<Emission>) {
    match cb
    case StatusPush(status, log, _) => StatusAppends(Kinds(es), status, log, more)
    case FillPush(execution, commission) => FillAppends(order, cbs, es, execution, commission, more)
  }

  /** The reference leaves no choice. */
  lemma AppendsOneThing(order: Order, cbs: seq<Callback>, es: seq<Emission>, cb: Callback, a: seq<Emission>,
                        b: seq<Emission>)
    requires Appends(order, cbs, es, cb, a) && Appends(order, cbs, es, cb, b)
    ensures a == b
  {
    if cb.StatusPush? {
      forall i: nat, j: nat | LastCoded(cb.log, i) && LastCoded(cb.log, j)
        ensures i == j
      {
      }
    }
  }

  lemma {:induction false} LastErrorIsLastCoded(log: seq<LogEntry>)
    ensures LastErrorEntry(log) == None <==> forall e :: e in log ==> e.errorCode == 0
    ensures LastErrorEntry(log).Some? ==> exists i: nat :: LastCoded(log, i) && log[i] == LastErrorEntry(log).value
  {
    if log != [] {
      var init, e := log[..|log| - 1], log[|log| - 1];
      if e.errorCode != 0 {
        assert LastCoded(log, |init|);
      } else {
        LastErrorIsLastCoded(init);
        if LastErrorEntry(init).Some? {
          var i: nat :| LastCoded(init, i) && init[i] == LastErrorEntry(init).value;
          assert LastCoded(log, i);
        }
      }
      assert log == init + [e];
    }
  }

  /** The tracking record says what the trace shows. */
  lemma FlagsShow(order: Order, cbs: seq<Callback>)
    ensures var t, ks := Track(NewTracking(order), cbs), Trace(order, cbs);
            && t.order == order && (t.terminal <==> !Unended(ks)) && (t.accepted <==> EvAccepted in ks)
            && t.cumulative == FilledQty(Spec(order, cbs))
  {
    FillsAreFaithful(order, cbs);
    TraceHasShape(order, cbs);
    FillsSumToCumulative(order, cbs);
    FilledQtyConcat([Plain(EvSubmitted, None)], Emissions(NewTracking(order), cbs));
    assert FilledQty([Plain(EvSubmitted, None)]) == 0.0;
    var t := Track(NewTracking(order), cbs);
    ShapeShows(Trace(order, cbs), t.accepted, t.terminal);
  }

  lemma ShapeShows(ks: seq<EventKind>, accepted: bool, terminal: bool)
    requires ShapeWithFlags(ks, accepted, terminal)
    ensures (terminal <==> !Unended(ks)) && (accepted <==> EvAccepted in ks)
  {
    var last := ks[|ks| - 1];
    assert last in ks;
    if k :| k in ks && IsTerminalKind(k) {
      var i :| 0 <= i < |ks| && ks[i] == k;
      assert i == |ks| - 1;
    }
  }

  /** Until the order ends, the executions seen are those pushed. */
  lemma {:induction false} SeenIffReported(order: Order, cbs: seq<Callback>)
    requires !Track(NewTracking(order), cbs).terminal
    ensures forall id :: id != "" ==> (id in Track(NewTracking(order), cbs).seen <==> Reported(cbs, id))
  {
    if cbs != [] {
      var init, cb := cbs[..|cbs| - 1], cbs[|cbs| - 1];
      SeenIffReported(order, init);
      ReportedSnoc(init, cb);
      assert cbs == init + [cb];
    }
  }

  lemma ReportedSnoc(init: seq<Callback>, cb: Callback)
    ensures forall id :: Reported(init + [cb], id) <==>
              Reported(init, id) || (cb.FillPush? && cb.execution.Some? && cb.execution.value.execId == id)
  {
    assert forall x :: x in init + [cb] <==> x in init || x == cb;
  }

  /** Every callback, after any callbacks, appends what the reference says. */
  lemma Responds(order: Order, cbs: seq<Callback>, cb: Callback)
    ensures Spec(order, cbs) <= Spec(order, cbs + [cb])
    ensures Appends(order, cbs, Spec(order, cbs), cb, Spec(order, cbs + [cb])[|Spec(order, cbs)|..])
  {
    var t, all := Track(NewTracking(order), cbs), cbs + [cb];
    assert all[..|cbs|] == cbs;
    var more := Handle(t, cb).1;
    assert Spec(order, all) == Spec(order, cbs) + more;
    assert Spec(order, all)[|Spec(order, cbs)|..] == more;
    HandleAppends(order, cbs, cb);
  }

  lemma HandleAppends(order: Order, cbs: seq<Callback>, cb: Callback)
    ensures Appends(order, cbs, Spec(order, cbs), cb, Handle(Track(NewTracking(order), cbs), cb).1)
  {
    FlagsShow(order, cbs);
    var t := Track(NewTracking(order), cbs);
    match cb {
      case StatusPush(_, log, _) => StatusAsTracked(t, Trace(order, cbs), cb);
      case FillPush(_, _) =>
        if !t.terminal {
          SeenIffReported(order, cbs);
        }
    }
  }

  lemma StatusAsTracked(t: Tracking, ks: seq<EventKind>, cb: Callback)
    requires cb.StatusPush? && (t.terminal <==> !Unended(ks)) && (t.accepted <==> EvAccepted in ks)
    ensures StatusAppends(ks, cb.status, cb.log, Handle(t, cb).1)
  {
    LastErrorIsLastCoded(cb.log);
  }

  // ---- In every run ------------------------------------------------------------

  /** In every run, whatever is scheduled or queued meanwhile: a push to a placed order appends to its events what
      the reference says of the events it had, and the error stash loses the order's entry exactly when the order
      ends with its reason known. */
  lemma PushResponds(steps: seq<Step>, policy: RoundingPolicy, id: OrderId, cb: Callback)
    requires FreshFor(steps, policy, id) && id in Exec(steps, policy).tracking
    ensures var b, b' := Exec(steps, policy), Exec(steps + [Push(id, cb)], policy);
            var es, es' := EventsOf(b, id), EventsOf(b', id);
            && es <= es' && Appends(b.tracking[id].order, CallbacksTo(steps, id, policy), es, cb, es'[|es|..])
            && id in b.trades
            && b'.errors == (if exists e :: e in es'[|es|..] && e.reason.Some? && !Unended([e.kind])
                             then b.errors - {b.trades[id].ibId} else b.errors)
  {
    var b := Exec(steps, policy);
    RunProjects(steps, policy, id);
    RunKeepsInvariant(steps, policy, id);
    ExecSnoc(steps, Push(id, cb), policy);
    PushEvents(b, id, cb, id);
    var order, cbs := b.tracking[id].order, CallbacksTo(steps, id, policy);
    HandleAppends(order, cbs, cb);
    RealisedKinds(EventsOf(b, id), Spec(order, cbs));
    RealisedQty(EventsOf(b, id), Spec(order, cbs));
    StashOnPush(b.tracking[id], cb);
  }

  lemma {:induction false} RealisedQty(actual: seq<Emission>, spec: seq<Emission>)
    requires Realises(actual, spec)
    ensures FilledQty(actual) == FilledQty(spec)
  {
    if spec != [] {
      RealisedQty(actual[..|actual| - 1], spec[..|spec| - 1]);
    }
  }

  lemma StashOnPush(t: Tracking, cb: Callback)
    ensures var r := Handle(t, cb);
            r.0.terminal && !t.terminal && !Defers(t, cb) <==>
            exists e :: e in r.1 && e.reason.Some? && !Unended([e.kind])
  {
    var out := Handle(t, cb).1;
    if out != [] {
      assert out[|out| - 1] in out;
    }
  }

  /** The last log message, else the hold text, else the error stashed under the order's wire id, else that no reason
      could be recovered. */
  predicate SaysWhy(errors: map<int, LogEntry>, ibId: int, log: seq<LogEntry>, hold: string, why: Reason) {
    why == if log != [] && log[|log| - 1].message != "" then VenueText(log[|log| - 1].message)
           else if hold != "" then VenueText(hold)
           else if ibId in errors then IbError(errors[ibId].errorCode, errors[ibId].message)
           else Unrecoverable
  }

  /** What a deferred REJECTED says, read from the last status pushed by the coroutine's last turn and the stash of
      that moment; and it is the order's last event for good. */
  lemma DeferredSays(steps: seq<Step>, n: nat, policy: RoundingPolicy, id: OrderId)
    requires FreshFor(steps, policy, id) && n < |steps| && LastTurn(Exec(steps[..n], policy), steps[n], id)
    ensures var own, b := Own(Exec(steps, policy).puts, id), Exec(steps[..n], policy);
            var (log, hold) := LastStatus(CallbacksTo(steps[..n], id, policy));
            && own != [] && id in b.trades
            && var e := own[|own| - 1];
               e.kind == EvRejected && e.fill == None && SaysWhy(b.errors, b.trades[id].ibId, log, hold, e.reason)
  {
    FreshPrefix(steps, n, policy, id);
    DeferredDecided(steps, n, policy, id);
    ReasonReads(steps[..n], policy, id);
  }

  lemma ReasonReads(steps: seq<Step>, policy: RoundingPolicy, id: OrderId)
    requires FreshFor(steps, policy, id) && LastTurn(Exec(steps, policy), RunReady, id)
    ensures var b, (log, hold) := Exec(steps, policy), LastStatus(CallbacksTo(steps, id, policy));
            id in b.trades && SaysWhy(b.errors, b.trades[id].ibId, log, hold, RejectReason(b, id))
  {
    RunKeepsInvariant(steps, policy, id);
    ClosesOnLastTurn(Exec(steps, policy), id);
    RejectReads(steps, policy, id);
  }
}
