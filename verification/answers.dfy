/** What a drain reports of one order, as a function of the order's own events. */
module Answers {
  import opened Domain
  import opened EventQueue
  import opened OrderFsm

  /** What the drain reports: state, deciding fill, and whether acceptance was observed. */
  datatype Answer = Answer(state: OrderState, fill: Option<Fill>, accepted: bool)

  function StateOf(k: EventKind): OrderState {
    match k
    case EvSubmitted => Submitted
    case EvAccepted => Accepted
    case EvPartialFill => PartiallyFilled
    case EvFilled => Filled
    case EvCanceled => Canceled
    case EvRejected => Rejected
    case EvExpired => Expired
  }

  /** The last state seen, the last fill seen, and acceptance by any event at or beyond it. */
  function AnswerFor(own: seq<OrderEvent>): Answer {
    Answer(
      if own == [] then SubmitPending else StateOf(own[|own| - 1].kind),
      if FillsIn(own) == [] then None else Some(FillsIn(own)[|FillsIn(own)| - 1]),
      exists e :: e in own && (e.kind == EvAccepted || IsFillKind(e.kind)))
  }

  predicate OpenEvents(es: seq<OrderEvent>) {
    forall e :: e in es ==> !IsTerminalKind(e.kind)
  }

  lemma AnswerSnoc(own: seq<OrderEvent>, e: OrderEvent)
    ensures var a, a' := AnswerFor(own), AnswerFor(own + [e]);
            && a'.state == StateOf(e.kind)
            && a'.fill == (if IsFillKind(e.kind) && e.fill.Some? then e.fill else a.fill)
            && a'.accepted == (a.accepted || e.kind == EvAccepted || IsFillKind(e.kind))
  {
    assert (own + [e])[..|own|] == own;
    assert (own + [e])[|own|] == e;
  }

  /** `a` answers for exactly these events, of which only the last may be, and then is, terminal. */
  ghost predicate Following(a: Answer, own: seq<OrderEvent>, ended: bool) {
    && a == AnswerFor(own)
    && IsTerminal(a.state) == ended
    && OpenEvents(if ended && own != [] then own[..|own| - 1] else own)
  }

  lemma FollowOn(a: Answer, own: seq<OrderEvent>, e: OrderEvent)
    requires Following(a, own, false)
    ensures Following(Extended(a, e), own + [e], IsTerminalKind(e.kind))
  {
    AnswerSnoc(own, e);
    assert (own + [e])[..|own|] == own;
  }

  /** An event that carries a fill. */
  predicate Fills(e: OrderEvent) {
    e.kind in {EvPartialFill, EvFilled} && e.fill.Some?
  }

  /** The answer in terms of the events read: the state names the last one's kind, and nothing read yet is
      SUBMIT_PENDING; the fill is that of the last event carrying one; and acceptance was seen exactly when an
      ACCEPTED or a fill was. */
  ghost predicate Reports(a: Answer, own: seq<OrderEvent>) {
    && (a.state == SubmitPending <==> own == [])
    && (own != [] ==>
          var k := own[|own| - 1].kind;
          && (a.state == Submitted <==> k == EvSubmitted) && (a.state == Accepted <==> k == EvAccepted)
          && (a.state == PartiallyFilled <==> k == EvPartialFill) && (a.state == Filled <==> k == EvFilled)
          && (a.state == Canceled <==> k == EvCanceled) && (a.state == Rejected <==> k == EvRejected)
          && (a.state == Expired <==> k == EvExpired))
    && (a.fill.None? ==> forall e :: e in own ==> !Fills(e))
    && (a.fill.Some? ==> exists i: nat :: LastFillAt(own, i) && own[i].fill == a.fill)
    && (a.accepted <==> exists e :: e in own && e.kind in {EvAccepted, EvPartialFill, EvFilled})
  }

  predicate LastFillAt(own: seq<OrderEvent>, i: nat) {
    i < |own| && Fills(own[i]) && forall j :: i < j < |own| ==> !Fills(own[j])
  }

  /** Every answer reports so. */
  lemma AnswerReports(own: seq<OrderEvent>)
    ensures Reports(AnswerFor(own), own)
  {
    LastFill(own);
    assert forall e: OrderEvent :: IsFillKind(e.kind) <==> e.kind in {EvPartialFill, EvFilled};
  }

  lemma {:induction false} LastFill(own: seq<OrderEvent>)
    ensures FillsIn(own) == [] ==> forall e :: e in own ==> !Fills(e)
    ensures FillsIn(own) != [] ==>
              exists i: nat :: LastFillAt(own, i) && own[i].fill == Some(FillsIn(own)[|FillsIn(own)| - 1])
  {
    if own != [] {
      var init, e := own[..|own| - 1], own[|own| - 1];
      LastFill(init);
      if Fills(e) {
        assert LastFillAt(own, |init|);
      } else if FillsIn(init) != [] {
        var i: nat :| LastFillAt(init, i) && init[i].fill == Some(FillsIn(init)[|FillsIn(init)| - 1]);
        assert LastFillAt(own, i);
      }
    }
  }

  /** The answer after one more event of the order. */
  function Extended(a: Answer, e: OrderEvent): Answer {
    Answer(StateOf(e.kind),
           if IsFillKind(e.kind) && e.fill.Some? then e.fill else a.fill,
           a.accepted || e.kind == EvAccepted || IsFillKind(e.kind))
  }

  lemma ReadOn(a: Answer, read: seq<QueueItem>, more: seq<QueueItem>, own: Option<OrderEvent>, id: OrderId)
    requires Following(a, Own(read, id), false)
    requires |more| <= 1 && Own(more, id) == if own.Some? then [own.value] else []
    ensures Following(if own.Some? then Extended(a, own.value) else a, Own(read + more, id),
                      own.Some? && IsTerminalKind(own.value.kind))
  {
    OwnReadOn(read, more, own, id);
    if own.Some? {
      FollowOn(a, Own(read, id), own.value);
    }
  }

  lemma OwnReadOn(read: seq<QueueItem>, more: seq<QueueItem>, own: Option<OrderEvent>, id: OrderId)
    requires Own(more, id) == if own.Some? then [own.value] else []
    ensures Own(read + more, id) == if own.Some? then Own(read, id) + [own.value] else Own(read, id)
  {
    OwnAppend(read, more, id);
  }
}
