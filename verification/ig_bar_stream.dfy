/** Bars from a merged stream of field updates, cut at consolidations. */
module IGBarStream {
  import opened Domain

  type Fields = map<string, string>

  /** Changed fields; `None` means no change. */
  type Update = map<string, Option<string>>

  datatype StreamBar = StreamBar(
    instrument: Instrument, openTime: int, closeTime: int,
    open: real, high: real, low: real, close: real, volume: real)

  /** The instrument, the bar length in milliseconds, and how the two number syntaxes read. */
  datatype Feed = Feed(
    instrument: Instrument, duration: int, whole: string -> Option<int>, number: string -> Option<real>)

  /** A consolidation's outcome: a bar, a skipped one, or an exception that ends the stream. */
  datatype Built = Built(bar: StreamBar) | Malformed | Raises

  datatype Price = Price(value: real) | Missing | Unreadable

  function Field(state: Fields, name: string): string {
    if name in state then state[name] else ""
  }

  /** The traded price when there is one, else the bid/offer midpoint. A price that is not a decimal
      raises, traded or not: it is never a reason to fall back. */
  function StreamOhlc(state: Fields, suffix: string, feed: Feed): Price {
    var ltp, bid, ask := Field(state, "LTP_" + suffix), Field(state, "BID_" + suffix), Field(state, "OFR_" + suffix);
    if ltp != "" then
      if feed.number(ltp).Some? then Price(feed.number(ltp).value) else Unreadable
    else if bid == "" || ask == "" then Missing
    else if feed.number(bid).None? || feed.number(ask).None? then Unreadable
    else Price((feed.number(bid).value + feed.number(ask).value) / 2.0)
  }

  /** The checks a Bar runs on construction. */
  predicate ValidBar(b: StreamBar) {
    && b.openTime < b.closeTime && b.open > 0.0 && b.close > 0.0
    && b.low <= b.open <= b.high && b.low <= b.close <= b.high && b.volume >= 0.0
  }

  /** The first of several prices that fails decides how. */
  function FirstProblem(ps: seq<Price>): Option<Built> {
    if ps == [] then None
    else
      match FirstProblem(ps[..|ps| - 1])
      case Some(b) => Some(b)
      case None =>
        match ps[|ps| - 1]
        case Price(_) => None
        case Missing => Some(Malformed)
        case Unreadable => Some(Raises)
  }

  function BuildBar(state: Fields, feed: Feed): Built {
    var utm := Field(state, "UTM");
    if utm == "" || feed.whole(utm).None? then Malformed
    else
      var o, h := StreamOhlc(state, "OPEN", feed), StreamOhlc(state, "HIGH", feed);
      var l, c := StreamOhlc(state, "LOW", feed), StreamOhlc(state, "CLOSE", feed);
      if !o.Price? || !h.Price? || !l.Price? || !c.Price? then
        var problem := FirstProblem([o, h, l, c]);
        if problem.Some? then problem.value else Malformed
      else
        var volume := feed.number(if "LTV" in state then state["LTV"] else "0");
        if volume.None? then Raises
        else
          var bar := StreamBar(feed.instrument, feed.whole(utm).value - feed.duration, feed.whole(utm).value,
                               o.value, h.value, l.value, c.value, if volume.value < 0.0 then 0.0 else volume.value);
          if ValidBar(bar) then Built(bar) else Malformed
  }

  // ---- The stream ----------------------------------------------------------

  function Merge(state: Fields, u: Update): Fields {
    state + map k | k in u && u[k].Some? :: u[k].value
  }

  predicate Ended(state: Fields) {
    "CONS_END" in state && state["CONS_END"] == "1"
  }

  datatype Stream = Stream(bars: seq<StreamBar>, state: Fields, raised: bool)

  function StreamNext(s: Stream, u: Update, feed: Feed): Stream {
    if s.raised then s
    else
      var state := Merge(s.state, u);
      if !Ended(state) then s.(state := state)
      else
        match BuildBar(state, feed)
        case Built(bar) => Stream(s.bars + [bar], map[], false)
        case Malformed => Stream(s.bars, map[], false)
        case Raises => Stream(s.bars, map[], true)
  }

  function StreamOf(updates: seq<Update>, feed: Feed): Stream {
    if updates == [] then Stream([], map[], false)
    else StreamNext(StreamOf(updates[..|updates| - 1], feed), updates[|updates| - 1], feed)
  }

  method BarStream(updates: seq<Update>, feed: Feed) returns (bars: seq<StreamBar>, raised: bool)
    ensures Stream(bars, StreamOf(updates, feed).state, raised) == StreamOf(updates, feed)
  {
    var state: Fields := map[];
    bars := [];
    for i := 0 to |updates|
      invariant StreamOf(updates[..i], feed) == Stream(bars, state, false)
    {
      assert updates[..i + 1][..i] == updates[..i];
      state := MergeInto(state, updates[i]);
      if "CONS_END" !in state || state["CONS_END"] != "1" {
        continue;
      }
      var built := BuildBar(state, feed);
      match built {
        case Raises =>
          RaisedStays(updates, i + 1, |updates|, feed);
          assert updates[..|updates|] == updates;
          return bars, true;
        case Malformed =>
          state := map[];
        case Built(bar) =>
          state := map[];
          bars := bars + [bar];
      }
    }
    assert updates[..|updates|] == updates;
    raised := false;
  }

  /** Field by field, in some order. */
  method MergeInto(state: Fields, u: Update) returns (merged: Fields)
    ensures merged == Merge(state, u)
  {
    merged := state;
    var todo := u;
    while todo != map[]
      invariant Merge(merged, todo) == Merge(state, u)
      decreases |todo.Keys|
    {
      var k :| k in todo.Keys;
      MergeOne(merged, todo, k);
      Smaller(todo, k);
      if todo[k].Some? {
        merged := merged[k := todo[k].value];
      }
      todo := todo - {k};
    }
    MergeNothing(merged);
  }

  lemma Smaller(u: Update, k: string)
    requires k in u
    ensures |(u - {k}).Keys| < |u.Keys|
  {
    assert (u - {k}).Keys == u.Keys - {k};
  }

  lemma MergeNothing(state: Fields)
    ensures Merge(state, map[]) == state
  {
  }

  lemma MergeOne(state: Fields, u: Update, k: string)
    requires k in u
    ensures Merge(if u[k].Some? then state[k := u[k].value] else state, u - {k}) == Merge(state, u)
  {
  }

  lemma {:induction false} RaisedStays(updates: seq<Update>, n: nat, m: nat, feed: Feed)
    requires n <= m <= |updates| && StreamOf(updates[..n], feed).raised
    ensures StreamOf(updates[..m], feed) == StreamOf(updates[..n], feed)
  {
    if n < m {
      RaisedStays(updates, n, m - 1, feed);
      assert updates[..m][..m - 1] == updates[..m - 1];
    }
  }

  // ---- Segmentation --------------------------------------------------------

  /** All updates of a segment merged, oldest first. */
  function Merged(us: seq<Update>): Fields {
    if us == [] then map[] else Merge(Merged(us[..|us| - 1]), us[|us| - 1])
  }

  predicate Writes(u: Update, k: string) {
    k in u && u[k].Some?
  }

  /** The merge is last-write-wins: a field has the last value written to it. */
  lemma {:induction false} LastWriteWins(us: seq<Update>, i: nat, k: string)
    requires i < |us| && Writes(us[i], k) && forall j :: i < j < |us| ==> !Writes(us[j], k)
    ensures k in Merged(us) && Merged(us)[k] == us[i][k].value
  {
    if i < |us| - 1 {
      LastWriteWins(us[..|us| - 1], i, k);
    }
  }

  /** And a field no update wrote is not there. */
  lemma {:induction false} OnlyWritten(us: seq<Update>, k: string)
    requires forall i :: 0 <= i < |us| ==> !Writes(us[i], k)
    ensures k !in Merged(us)
  {
    if us != [] {
      OnlyWritten(us[..|us| - 1], k);
    }
  }

  datatype Cut = Cut(done: seq<seq<Update>>, open: seq<Update>)

  /** Cut a stream of updates after every one that completes a consolidation. */
  function CutOf(updates: seq<Update>): Cut {
    if updates == [] then Cut([], [])
    else
      var c := CutOf(updates[..|updates| - 1]);
      var segment := c.open + [updates[|updates| - 1]];
      if Ended(Merged(segment)) then Cut(c.done + [segment], []) else Cut(c.done, segment)
  }

  function Joined(segments: seq<seq<Update>>): seq<Update> {
    if segments == [] then [] else Joined(segments[..|segments| - 1]) + segments[|segments| - 1]
  }

  /** A segment ends at its first consolidation. */
  predicate Segment(us: seq<Update>) {
    us != [] && Ended(Merged(us)) && !Ended(Merged(us[..|us| - 1]))
  }

  lemma JoinedSnoc(segments: seq<seq<Update>>, last: seq<Update>)
    ensures Joined(segments + [last]) == Joined(segments) + last
  {
    assert (segments + [last])[..|segments|] == segments;
  }

  ghost predicate AllSegments(segments: seq<seq<Update>>) {
    forall i :: 0 <= i < |segments| ==> Segment(segments[i])
  }

  ghost predicate CutsUp(c: Cut, updates: seq<Update>) {
    Joined(c.done) + c.open == updates && !Ended(Merged(c.open)) && AllSegments(c.done)
  }

  lemma CutGrows(c: Cut, updates: seq<Update>, u: Update)
    requires CutsUp(c, updates) && !Ended(Merged(c.open + [u]))
    ensures CutsUp(Cut(c.done, c.open + [u]), updates + [u])
  {
    assert Joined(c.done) + (c.open + [u]) == (Joined(c.done) + c.open) + [u];
  }

  lemma CutCloses(c: Cut, updates: seq<Update>, u: Update)
    requires CutsUp(c, updates) && Ended(Merged(c.open + [u]))
    ensures CutsUp(Cut(c.done + [c.open + [u]], []), updates + [u])
  {
    var segment := c.open + [u];
    assert segment[..|segment| - 1] == c.open;
    JoinedSnoc(c.done, segment);
    assert Joined(c.done) + segment + [] == (Joined(c.done) + c.open) + [u];
    assert Merged([]) == map[];
  }

  /** The cut loses, repeats and reorders nothing. */
  lemma {:induction false} CutIsExact(updates: seq<Update>)
    ensures CutsUp(CutOf(updates), updates)
  {
    if updates == [] {
      assert Joined([]) + [] == updates;
    } else {
      var init, u := updates[..|updates| - 1], updates[|updates| - 1];
      CutIsExact(init);
      if Ended(Merged(CutOf(init).open + [u])) {
        CutCloses(CutOf(init), init, u);
      } else {
        CutGrows(CutOf(init), init, u);
      }
      assert updates == init + [u];
    }
  }

  /** The reference: build a bar from each segment, skip malformed ones, stop at the first that raises. */
  function BarsOf(segments: seq<seq<Update>>, feed: Feed): (seq<StreamBar>, bool) {
    if segments == [] then ([], false)
    else
      var (bars, raised) := BarsOf(segments[..|segments| - 1], feed);
      if raised then (bars, true)
      else
        match BuildBar(Merged(segments[|segments| - 1]), feed)
        case Built(bar) => (bars + [bar], false)
        case Malformed => (bars, false)
        case Raises => (bars, true)
  }

  /** The bars emitted are those of the segments; what is carried is the merge of the open one, never a
      consolidation mark. */
  ghost predicate Segmentwise(s: Stream, c: Cut, feed: Feed) {
    && (s.bars, s.raised) == BarsOf(c.done, feed)
    && (!s.raised ==> s.state == Merged(c.open))
    && !Ended(s.state)
  }

  lemma SegmentwiseStep(s: Stream, c: Cut, u: Update, feed: Feed)
    requires Segmentwise(s, c, feed)
    ensures var segment := c.open + [u];
            Segmentwise(StreamNext(s, u, feed),
                        if Ended(Merged(segment)) then Cut(c.done + [segment], []) else Cut(c.done, segment), feed)
  {
    var segment := c.open + [u];
    assert segment[..|segment| - 1] == c.open;
    assert Merged(segment) == Merge(Merged(c.open), u);
    assert (c.done + [segment])[..|c.done|] == c.done;
  }

  /** The stream emits exactly the bars of its segments, each from the merge of exactly the updates since
      the previous consolidation. */
  lemma {:induction false} StreamIsSegmentwise(updates: seq<Update>, feed: Feed)
    ensures Segmentwise(StreamOf(updates, feed), CutOf(updates), feed)
  {
    if updates != [] {
      var init, u := updates[..|updates| - 1], updates[|updates| - 1];
      StreamIsSegmentwise(init, feed);
      SegmentwiseStep(StreamOf(init, feed), CutOf(init), u, feed);
    }
  }

  /** After a consolidation the stream starts afresh: the output of the whole is the output of the parts. */
  lemma {:induction false} StreamConcat(a: seq<Update>, b: seq<Update>, feed: Feed)
    requires CutOf(a).open == [] && !StreamOf(a, feed).raised
    ensures var s, t := StreamOf(a + b, feed), StreamOf(b, feed);
            s.bars == StreamOf(a, feed).bars + t.bars && s.state == t.state && s.raised == t.raised
  {
    if b == [] {
      assert a + b == a;
      StreamIsSegmentwise(a, feed);
    } else {
      var b0, u := b[..|b| - 1], b[|b| - 1];
      assert (a + b)[..|a + b| - 1] == a + b0 && (a + b)[|a + b| - 1] == u;
      StreamConcat(a, b0, feed);
      NextPrepends(StreamOf(a, feed).bars, StreamOf(b0, feed), u, feed);
    }
  }

  lemma NextPrepends(before: seq<StreamBar>, s: Stream, u: Update, feed: Feed)
    ensures var s' := StreamNext(s, u, feed);
            StreamNext(s.(bars := before + s.bars), u, feed) == s'.(bars := before + s'.bars)
  {
    assert before + s.bars + [] == before + s.bars;
  }

  // ---- What a bar is built from -------------------------------------------------

  /** `v` is the price of this kind: the traded one where there is one, else midway between bid and offer. */
  predicate PriceRead(state: Fields, suffix: string, feed: Feed, v: real) {
    var ltp, bid, offer := "LTP_" + suffix, "BID_" + suffix, "OFR_" + suffix;
    if ltp in state && state[ltp] != "" then feed.number(state[ltp]) == Some(v)
    else
      && bid in state && state[bid] != "" && offer in state && state[offer] != ""
      && feed.number(state[bid]).Some? && feed.number(state[offer]).Some?
      && 2.0 * v == feed.number(state[bid]).value + feed.number(state[offer]).value
  }

  /** A consolidation gives this bar exactly when each part of it reads so, and the parts make a bar: it closes at
      the timestamp, opens one bar length before, and a negative volume counts as none. */
  lemma BuiltIff(state: Fields, feed: Feed, bar: StreamBar)
    ensures BuildBar(state, feed) == Built(bar) <==>
            && bar.instrument == feed.instrument
            && "UTM" in state && state["UTM"] != "" && feed.whole(state["UTM"]) == Some(bar.closeTime)
            && bar.openTime == bar.closeTime - feed.duration
            && PriceRead(state, "OPEN", feed, bar.open) && PriceRead(state, "HIGH", feed, bar.high)
            && PriceRead(state, "LOW", feed, bar.low) && PriceRead(state, "CLOSE", feed, bar.close)
            && VolumeRead(state, feed, bar.volume)
            && bar.openTime < bar.closeTime && bar.open > 0.0 && bar.close > 0.0
            && bar.low <= bar.open <= bar.high && bar.low <= bar.close <= bar.high
  {
    OhlcReads(state, "OPEN", feed, bar.open);
    OhlcReads(state, "HIGH", feed, bar.high);
    OhlcReads(state, "LOW", feed, bar.low);
    OhlcReads(state, "CLOSE", feed, bar.close);
    var o, h := StreamOhlc(state, "OPEN", feed), StreamOhlc(state, "HIGH", feed);
    var l, c := StreamOhlc(state, "LOW", feed), StreamOhlc(state, "CLOSE", feed);
    var volume := feed.number(if "LTV" in state then state["LTV"] else "0");
    var utm := Field(state, "UTM");
    if utm != "" && feed.whole(utm).Some? && o.Price? && h.Price? && l.Price? && c.Price? && volume.Some? {
      assert VolumeRead(state, feed, bar.volume) <==> bar.volume == if volume.value < 0.0 then 0.0 else volume.value;
    } else {
      ProblemCases(o, h, l, c);
    }
  }

  predicate VolumeRead(state: Fields, feed: Feed, v: real) {
    var volume := feed.number(if "LTV" in state then state["LTV"] else "0");
    volume.Some? && v >= 0.0 && (v == volume.value || (volume.value < 0.0 && v == 0.0))
  }

  lemma OhlcReads(state: Fields, suffix: string, feed: Feed, v: real)
    ensures StreamOhlc(state, suffix, feed) == Price(v) <==> PriceRead(state, suffix, feed, v)
  {
  }

  // ---- When the stream ends -----------------------------------------------------

  predicate Reads(parse: string -> Option<real>, text: string) {
    parse(text).Some?
  }

  /** A price is there: traded, or else bid and offer both. */
  predicate Quoted(state: Fields, suffix: string) {
    Field(state, "LTP_" + suffix) != "" ||
    (Field(state, "BID_" + suffix) != "" && Field(state, "OFR_" + suffix) != "")
  }

  /** The texts a price would be read from are decimals. */
  predicate Decimals(state: Fields, suffix: string, feed: Feed) {
    if Field(state, "LTP_" + suffix) != "" then Reads(feed.number, Field(state, "LTP_" + suffix))
    else Reads(feed.number, Field(state, "BID_" + suffix)) && Reads(feed.number, Field(state, "OFR_" + suffix))
  }

  predicate Fine(state: Fields, suffix: string, feed: Feed) {
    Quoted(state, suffix) && Decimals(state, suffix, feed)
  }

  predicate Garbled(state: Fields, suffix: string, feed: Feed) {
    Quoted(state, suffix) && !Decimals(state, suffix, feed)
  }

  const SUFFIXES: seq<string> := ["OPEN", "HIGH", "LOW", "CLOSE"]

  predicate FineBefore(state: Fields, n: nat, feed: Feed)
    requires n <= |SUFFIXES|
  {
    forall i :: 0 <= i < n ==> Fine(state, SUFFIXES[i], feed)
  }

  /** The timestamp reads, and either the first of the four prices that is not fine is quoted in text that is
      no decimal, or all four are fine and the volume is no decimal. */
  ghost predicate EndsStream(state: Fields, feed: Feed) {
    && Field(state, "UTM") != "" && feed.whole(Field(state, "UTM")).Some?
    && ((exists n :: 0 <= n < |SUFFIXES| && FineBefore(state, n, feed) && Garbled(state, SUFFIXES[n], feed))
        || (FineBefore(state, |SUFFIXES|, feed) && !Reads(feed.number, if "LTV" in state then state["LTV"] else "0")))
  }

  lemma OhlcCases(state: Fields, suffix: string, feed: Feed)
    ensures StreamOhlc(state, suffix, feed).Price? <==> Fine(state, suffix, feed)
    ensures StreamOhlc(state, suffix, feed).Unreadable? <==> Garbled(state, suffix, feed)
  {
  }

  lemma ProblemCases(a: Price, b: Price, c: Price, d: Price)
    ensures FirstProblem([a, b, c, d]) ==
            if a.Missing? then Some(Malformed) else if a.Unreadable? then Some(Raises)
            else if b.Missing? then Some(Malformed) else if b.Unreadable? then Some(Raises)
            else if c.Missing? then Some(Malformed) else if c.Unreadable? then Some(Raises)
            else if d.Missing? then Some(Malformed) else if d.Unreadable? then Some(Raises)
            else None
  {
    var ps := [a, b, c, d];
    assert ps[..3] == [a, b, c] && [a, b, c][..2] == [a, b] && [a, b][..1] == [a] && [a][..0] == [];
    assert FirstProblem([a]) == if a.Missing? then Some(Malformed) else if a.Unreadable? then Some(Raises) else None;
    assert FirstProblem([a, b, c]) ==
           if FirstProblem([a, b]).Some? then FirstProblem([a, b])
           else if c.Missing? then Some(Malformed) else if c.Unreadable? then Some(Raises) else None;
  }

  /** Not every malformed consolidation is skipped: a merge ends the stream, instead of giving a bar or being
      skipped, exactly when its text is garbled so. */
  lemma RaisesIff(state: Fields, feed: Feed)
    ensures BuildBar(state, feed) == Raises <==> EndsStream(state, feed)
  {
    var o, h := StreamOhlc(state, SUFFIXES[0], feed), StreamOhlc(state, SUFFIXES[1], feed);
    var l, c := StreamOhlc(state, SUFFIXES[2], feed), StreamOhlc(state, SUFFIXES[3], feed);
    forall i | 0 <= i < |SUFFIXES|
      ensures StreamOhlc(state, SUFFIXES[i], feed).Price? <==> Fine(state, SUFFIXES[i], feed)
      ensures StreamOhlc(state, SUFFIXES[i], feed).Unreadable? <==> Garbled(state, SUFFIXES[i], feed)
    {
      OhlcCases(state, SUFFIXES[i], feed);
    }
    ProblemCases(o, h, l, c);
    FirstGarbled(state, feed);
  }

  /** Which of the four comes first, spelled out. */
  lemma FirstGarbled(state: Fields, feed: Feed)
    ensures (exists n :: 0 <= n < |SUFFIXES| && FineBefore(state, n, feed) && Garbled(state, SUFFIXES[n], feed)) <==>
            Garbled(state, "OPEN", feed) || (Fine(state, "OPEN", feed) &&
            (Garbled(state, "HIGH", feed) || (Fine(state, "HIGH", feed) &&
            (Garbled(state, "LOW", feed) || (Fine(state, "LOW", feed) && Garbled(state, "CLOSE", feed))))))
    ensures FineBefore(state, |SUFFIXES|, feed) <==>
            && Fine(state, "OPEN", feed) && Fine(state, "HIGH", feed)
            && Fine(state, "LOW", feed) && Fine(state, "CLOSE", feed)
  {
    assert FineBefore(state, 0, feed);
    assert FineBefore(state, 1, feed) <==> Fine(state, SUFFIXES[0], feed);
    assert FineBefore(state, 2, feed) <==> FineBefore(state, 1, feed) && Fine(state, SUFFIXES[1], feed);
    assert FineBefore(state, 3, feed) <==> FineBefore(state, 2, feed) && Fine(state, SUFFIXES[2], feed);
    assert FineBefore(state, 4, feed) <==> FineBefore(state, 3, feed) && Fine(state, SUFFIXES[3], feed);
  }

  ghost predicate SomeEnds(segments: seq<seq<Update>>, feed: Feed) {
    exists i :: 0 <= i < |segments| && EndsStream(Merged(segments[i]), feed)
  }

  /** A stream has ended if and only if the merge of one of its segments was such a state. */
  lemma StreamEndsIff(updates: seq<Update>, feed: Feed)
    ensures StreamOf(updates, feed).raised <==> SomeEnds(CutOf(updates).done, feed)
  {
    StreamIsSegmentwise(updates, feed);
    SegmentsEndIff(CutOf(updates).done, feed);
    var s, c := StreamOf(updates, feed), CutOf(updates);
    assert (s.bars, s.raised) == BarsOf(c.done, feed);
  }

  lemma {:induction false} SegmentsEndIff(segments: seq<seq<Update>>, feed: Feed)
    ensures BarsOf(segments, feed).1 <==> SomeEnds(segments, feed)
  {
    if segments != [] {
      var init, last := segments[..|segments| - 1], segments[|segments| - 1];
      SegmentsEndIff(init, feed);
      RaisesIff(Merged(last), feed);
      SomeEndsSnoc(init, last, feed);
      assert segments == init + [last];
      assert BarsOf(segments, feed).1 <==> BarsOf(init, feed).1 || BuildBar(Merged(last), feed) == Raises;
    }
  }

  lemma SomeEndsSnoc(init: seq<seq<Update>>, last: seq<Update>, feed: Feed)
    ensures SomeEnds(init + [last], feed) <==> SomeEnds(init, feed) || EndsStream(Merged(last), feed)
  {
    var all := init + [last];
    assert all[|init|] == last;
    if SomeEnds(init, feed) {
      var i :| 0 <= i < |init| && EndsStream(Merged(init[i]), feed);
      assert EndsStream(Merged(all[i]), feed);
    }
    if SomeEnds(all, feed) && !EndsStream(Merged(last), feed) {
      var i :| 0 <= i < |all| && EndsStream(Merged(all[i]), feed);
      assert EndsStream(Merged(init[i]), feed);
    }
  }
}
