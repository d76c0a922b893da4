/** The two-leg trend filter with hysteresis, its target weights and its regime-flip count. */
module Signals {
  import opened Domain

  /** A daily close; `None` is a missing value. */
  type Close = Option<real>

  datatype Buffers = Buffers(exit: real, enter: real)

  /** Eligibility of the two risk legs and of the parking leg. */
  datatype Row = Row(tqqq: bool, tmf: bool, ief: bool)

  datatype SignalError = BadWindow | IndexMismatch

  // ---- Rolling mean, by definition -----------------------------------------

  function Sum(xs: seq<real>): real {
    if xs == [] then 0.0 else Sum(xs[..|xs| - 1]) + xs[|xs| - 1]
  }

  predicate Complete(closes: seq<Close>, lo: nat, hi: nat)
    requires hi <= |closes|
  {
    forall k :: lo <= k < hi ==> closes[k].Some?
  }

  function Values(closes: seq<Close>, lo: nat, hi: nat): seq<real>
    requires lo <= hi <= |closes| && Complete(closes, lo, hi)
  {
    seq(hi - lo, k requires 0 <= k < hi - lo => closes[lo + k].value)
  }

  /** The mean of the last `window` closes up to bar `i`, when all are there. */
  function Sma(closes: seq<Close>, window: nat, i: nat): Option<real>
    requires i < |closes| && window >= 2
  {
    if i + 1 < window || !Complete(closes, i + 1 - window, i + 1) then None
    else Some(Sum(Values(closes, i + 1 - window, i + 1)) / window as real)
  }

  // ---- One leg -------------------------------------------------------------

  predicate Below(c: Close, s: Option<real>, b: Buffers) {
    c.Some? && s.Some? && c.value < s.value * (1.0 + b.exit)
  }

  predicate Above(c: Close, s: Option<real>, b: Buffers) {
    c.Some? && s.Some? && c.value > s.value * (1.0 + b.enter)
  }

  /** Leave when below the exit threshold, re-enter when above the enter one. */
  function Hysteresis(state: bool, c: Close, s: Option<real>, b: Buffers): bool {
    if state && Below(c, s, b) then false
    else if !state && Above(c, s, b) then true
    else state
  }

  /** A leg after `n` bars; bars on which the guard series has no mean or no close are skipped. */
  function LegState(closes: seq<Close>, guard: seq<Close>, window: nat, b: Buffers, n: nat): bool
    requires n <= |closes| == |guard| && window >= 2
  {
    if n == 0 then true
    else
      var before := LegState(closes, guard, window, b, n - 1);
      if Skipped(guard, window, n - 1) then before
      else Hysteresis(before, closes[n - 1], Sma(closes, window, n - 1), b)
  }

  predicate Skipped(guard: seq<Close>, window: nat, i: nat)
    requires i < |guard| && window >= 2
  {
    Sma(guard, window, i).None? || guard[i].None?
  }

  /** The row of bar `i`: a skipped bar shows both legs eligible without touching their states. */
  function RowAt(qqq: seq<Close>, tlt: seq<Close>, window: nat, b: Buffers, i: nat): Row
    requires i < |qqq| == |tlt| && window >= 2
  {
    var skip := Skipped(qqq, window, i);
    var tq := skip || LegState(qqq, qqq, window, b, i + 1);
    var tm := skip || LegState(tlt, qqq, window, b, i + 1);
    Row(tq, tm, !(tq && tm))
  }

  method TripleLevEligibility(qqq: seq<Close>, tlt: seq<Close>, window: int, b: Buffers)
    returns (r: Result<seq<Row>, SignalError>)
    ensures r == Err(BadWindow) <==> window < 2
    ensures r == Err(IndexMismatch) <==> window >= 2 && |qqq| != |tlt|
    ensures r.Ok? ==> |r.value| == |qqq| && forall i :: 0 <= i < |qqq| ==> r.value[i] == RowAt(qqq, tlt, window, b, i)
  {
    if window < 2 {
      return Err(BadWindow);
    }
    if |qqq| != |tlt| {
      return Err(IndexMismatch);
    }
    var rows, tq, tm := [], true, true;
    for i := 0 to |qqq|
      invariant |rows| == i && forall j :: 0 <= j < i ==> rows[j] == RowAt(qqq, tlt, window, b, j)
      invariant tq == LegState(qqq, qqq, window, b, i) && tm == LegState(tlt, qqq, window, b, i)
    {
      var q, t, qs, ts := qqq[i], tlt[i], Sma(qqq, window, i), Sma(tlt, window, i);
      if qs.None? || q.None? {
        rows := rows + [Row(true, true, false)];
        continue;
      }
      if tq && Below(q, qs, b) {
        tq := false;
      } else if !tq && Above(q, qs, b) {
        tq := true;
      }
      if tm && Below(t, ts, b) {
        tm := false;
      } else if !tm && Above(t, ts, b) {
        tm := true;
      }
      rows := rows + [Row(tq, tm, !(tq && tm))];
    }
    r := Ok(rows);
  }

  // ---- Closed form ---------------------------------------------------------

  /** On a bar beyond a threshold, its direction; otherwise what was. */
  function Directed(state: bool, c: Close, s: Option<real>, b: Buffers): bool {
    if Above(c, s, b) then true else if Below(c, s, b) then false else state
  }

  /** A bar decides the state by itself exactly when it is not beyond both thresholds at once; when it is,
      the leg toggles, whichever way it was. */
  lemma DirectedIff(c: Close, s: Option<real>, b: Buffers)
    ensures (forall state :: Hysteresis(state, c, s, b) == Directed(state, c, s, b)) <==>
            !(Above(c, s, b) && Below(c, s, b))
    ensures Above(c, s, b) && Below(c, s, b) ==> forall state :: Hysteresis(state, c, s, b) == !state
  {
    assert Hysteresis(true, c, s, b) == Directed(true, c, s, b) || (Above(c, s, b) && Below(c, s, b));
  }

  /** Ordered buffers and a non-negative mean keep the thresholds apart. */
  lemma ThresholdsApart(c: Close, s: Option<real>, b: Buffers)
    requires b.exit <= b.enter && (s.Some? ==> s.value >= 0.0)
    ensures !(Above(c, s, b) && Below(c, s, b))
  {
    if s.Some? {
      ScaleMonotone(s.value, 1.0 + b.exit, 1.0 + b.enter);
    }
  }

  lemma ScaleMonotone(x: real, a: real, b: real)
    requires x >= 0.0 && a <= b
    ensures x * a <= x * b
  {
  }

  /** Buffers the wrong way round: a constant price between them toggles the leg on every bar. */
  lemma CrossedBuffersOscillate(price: real, b: Buffers, n: nat)
    requires price > 0.0 && b.enter < 0.0 < b.exit
    ensures var closes := seq(n + 2, _ => Some(price));
            forall i :: 1 <= i <= n ==> LegState(closes, closes, 2, b, i + 1) == !LegState(closes, closes, 2, b, i)
  {
    var closes: seq<Close> := seq(n + 2, _ => Some(price));
    forall i | 1 <= i <= n
      ensures LegState(closes, closes, 2, b, i + 1) == !LegState(closes, closes, 2, b, i)
    {
      var xs := Values(closes, i - 1, i + 1);
      assert xs == [price, price] && xs[..1] == [price] && xs[..1][..0] == [];
      assert Sum(xs[..1]) == Sum([]) + price;
      assert Sma(closes, 2, i) == Some(price);
      ConstantBeyondBoth(price, b);
      DirectedIff(Some(price), Some(price), b);
    }
  }

  lemma ConstantBeyondBoth(price: real, b: Buffers)
    requires price > 0.0 && b.enter < 0.0 < b.exit
    ensures Above(Some(price), Some(price), b) && Below(Some(price), Some(price), b)
  {
    assert price * (1.0 + b.exit) == price + price * b.exit;
    assert price * (1.0 + b.enter) == price + price * b.enter;
    assert price * b.exit > 0.0 && price * b.enter < 0.0;
  }

  ghost predicate AllThere(closes: seq<Close>) {
    forall c :: c in closes ==> c.Some? && c.value >= 0.0
  }

  lemma {:induction false} SumNonNegative(xs: seq<real>)
    requires forall i :: 0 <= i < |xs| ==> xs[i] >= 0.0
    ensures Sum(xs) >= 0.0
  {
    if xs != [] {
      SumNonNegative(xs[..|xs| - 1]);
    }
  }

  lemma SmaNonNegative(closes: seq<Close>, window: nat, i: nat)
    requires AllThere(closes) && i < |closes| && window >= 2
    ensures Sma(closes, window, i).Some? <==> i + 1 >= window
    ensures Sma(closes, window, i).Some? ==> Sma(closes, window, i).value >= 0.0
  {
    assert forall k :: 0 <= k < |closes| ==> closes[k] in closes;
    if i + 1 >= window {
      SumNonNegative(Values(closes, i + 1 - window, i + 1));
    }
  }

  predicate BelowAt(closes: seq<Close>, window: nat, b: Buffers, i: nat)
    requires i < |closes| && window >= 2
  {
    Below(closes[i], Sma(closes, window, i), b)
  }

  predicate AboveAt(closes: seq<Close>, window: nat, b: Buffers, i: nat)
    requires i < |closes| && window >= 2
  {
    Above(closes[i], Sma(closes, window, i), b)
  }

  /** Some bar fell below the exit threshold and no later one rose above the enter threshold. */
  ghost predicate OutSince(closes: seq<Close>, window: nat, b: Buffers, n: nat)
    requires n <= |closes| && window >= 2
  {
    exists j :: 0 <= j < n && BelowAt(closes, window, b, j) && forall k :: j < k < n ==> !AboveAt(closes, window, b, k)
  }

  /** With complete, non-negative closes and ordered buffers a leg has no hidden memory: it is eligible
      unless the last bar beyond either threshold was below the exit one. */
  lemma {:induction false} LegClosedForm(closes: seq<Close>, guard: seq<Close>, window: nat, b: Buffers, n: nat)
    requires AllThere(closes) && AllThere(guard) && n <= |closes| == |guard| && window >= 2 && b.exit <= b.enter
    ensures LegState(closes, guard, window, b, n) <==> !OutSince(closes, window, b, n)
  {
    if n > 0 {
      var i := n - 1;
      LegClosedForm(closes, guard, window, b, i);
      SmaNonNegative(closes, window, i);
      SmaNonNegative(guard, window, i);
      assert closes[i] in closes && guard[i] in guard;
      ThresholdsApart(closes[i], Sma(closes, window, i), b);
      OutSinceStep(closes, window, b, i);
    }
  }

  lemma OutSinceStep(closes: seq<Close>, window: nat, b: Buffers, i: nat)
    requires i < |closes| && window >= 2
    requires !(AboveAt(closes, window, b, i) && BelowAt(closes, window, b, i))
    ensures OutSince(closes, window, b, i + 1) <==>
            BelowAt(closes, window, b, i) || (OutSince(closes, window, b, i) && !AboveAt(closes, window, b, i))
  {
    if OutSince(closes, window, b, i) && !AboveAt(closes, window, b, i) {
      var j :| 0 <= j < i && BelowAt(closes, window, b, j) && forall k :: j < k < i ==> !AboveAt(closes, window, b, k);
      assert forall k :: j < k < i + 1 ==> !AboveAt(closes, window, b, k);
    }
    if OutSince(closes, window, b, i + 1) && !BelowAt(closes, window, b, i) {
      var j :| 0 <= j < i + 1 && BelowAt(closes, window, b, j) &&
               forall k :: j < k < i + 1 ==> !AboveAt(closes, window, b, k);
      assert j < i && !AboveAt(closes, window, b, i);
    }
  }

  // ---- The same in sums of closes --------------------------------------------

  /** The sum of the closes from `lo` up to `hi`. */
  function Total(closes: seq<Close>, lo: nat, hi: nat): real
    requires lo <= hi <= |closes|
  {
    if lo == hi then 0.0
    else Total(closes, lo, hi - 1) + if closes[hi - 1].Some? then closes[hi - 1].value else 0.0
  }

  /** `window` times the close is less than the last `window` closes together, raised by the exit buffer. */
  ghost predicate FellAt(closes: seq<Close>, window: nat, b: Buffers, i: nat)
    requires i < |closes| && window >= 2
  {
    && window <= i + 1 && (forall k :: i + 1 - window <= k <= i ==> closes[k].Some?)
    && window as real * closes[i].value < Total(closes, i + 1 - window, i + 1) * (1.0 + b.exit)
  }

  /** And more, raised by the enter buffer. */
  ghost predicate RoseAt(closes: seq<Close>, window: nat, b: Buffers, i: nat)
    requires i < |closes| && window >= 2
  {
    && window <= i + 1 && (forall k :: i + 1 - window <= k <= i ==> closes[k].Some?)
    && window as real * closes[i].value > Total(closes, i + 1 - window, i + 1) * (1.0 + b.enter)
  }

  lemma {:induction false} SumIsTotal(closes: seq<Close>, lo: nat, hi: nat)
    requires lo <= hi <= |closes| && Complete(closes, lo, hi)
    ensures Sum(Values(closes, lo, hi)) == Total(closes, lo, hi)
  {
    if lo < hi {
      SumIsTotal(closes, lo, hi - 1);
      assert Values(closes, lo, hi)[..hi - lo - 1] == Values(closes, lo, hi - 1);
    }
  }

  lemma Averaged(c: real, total: real, n: nat, factor: real)
    requires n > 0
    ensures c < total / n as real * factor <==> n as real * c < total * factor
    ensures c > total / n as real * factor <==> n as real * c > total * factor
  {
    var mean := total / n as real;
    assert n as real * mean == total;
    assert n as real * (mean * factor) == total * factor;
    assert n as real * (c - mean * factor) == n as real * c - total * factor;
  }

  lemma BeyondInTotals(closes: seq<Close>, window: nat, b: Buffers, i: nat)
    requires i < |closes| && window >= 2
    ensures BelowAt(closes, window, b, i) <==> FellAt(closes, window, b, i)
    ensures AboveAt(closes, window, b, i) <==> RoseAt(closes, window, b, i)
  {
    if window <= i + 1 && Complete(closes, i + 1 - window, i + 1) {
      var total := Total(closes, i + 1 - window, i + 1);
      SumIsTotal(closes, i + 1 - window, i + 1);
      Averaged(closes[i].value, total, window, 1.0 + b.exit);
      Averaged(closes[i].value, total, window, 1.0 + b.enter);
    }
  }

  /** A leg is out after `n` bars exactly when some bar fell and none has risen since. */
  lemma LegInTotals(closes: seq<Close>, guard: seq<Close>, window: nat, b: Buffers, n: nat)
    requires AllThere(closes) && AllThere(guard) && n <= |closes| == |guard| && window >= 2 && b.exit <= b.enter
    ensures LegState(closes, guard, window, b, n) <==>
            !exists j :: 0 <= j < n && FellAt(closes, window, b, j) &&
                         forall k :: j < k < n ==> !RoseAt(closes, window, b, k)
  {
    LegClosedForm(closes, guard, window, b, n);
    forall i | 0 <= i < n
      ensures BelowAt(closes, window, b, i) <==> FellAt(closes, window, b, i)
      ensures AboveAt(closes, window, b, i) <==> RoseAt(closes, window, b, i)
    {
      BeyondInTotals(closes, window, b, i);
    }
    if OutSince(closes, window, b, n) {
      var j :| 0 <= j < n && BelowAt(closes, window, b, j) && forall k :: j < k < n ==> !AboveAt(closes, window, b, k);
      assert FellAt(closes, window, b, j);
    }
    if j :| 0 <= j < n && FellAt(closes, window, b, j) && forall k :: j < k < n ==> !RoseAt(closes, window, b, k) {
      assert BelowAt(closes, window, b, j);
    }
  }

  /** Without missing closes the rows show exactly the states of the legs, warm-up included. */
  lemma RowsShowStates(qqq: seq<Close>, tlt: seq<Close>, window: nat, b: Buffers, i: nat)
    requires AllThere(qqq) && i < |qqq| == |tlt| && window >= 2
    ensures var tq, tm := LegState(qqq, qqq, window, b, i + 1), LegState(tlt, qqq, window, b, i + 1);
            RowAt(qqq, tlt, window, b, i) == Row(tq, tm, !(tq && tm))
  {
    SmaNonNegative(qqq, window, i);
    assert qqq[i] in qqq;
    if i + 1 < window {
      WarmUpEligible(qqq, qqq, window, b, i + 1);
      WarmUpEligible(tlt, qqq, window, b, i + 1);
    }
  }

  lemma {:induction false} WarmUpEligible(closes: seq<Close>, guard: seq<Close>, window: nat, b: Buffers, n: nat)
    requires n <= |closes| == |guard| && 2 <= window && n < window
    ensures LegState(closes, guard, window, b, n)
  {
    if n > 0 {
      WarmUpEligible(closes, guard, window, b, n - 1);
    }
  }

  // ---- Weights -------------------------------------------------------------

  function AsFloats(row: Row): seq<real> {
    [if row.tqqq then 1.0 else 0.0, if row.tmf then 1.0 else 0.0, if row.ief then 1.0 else 0.0]
  }

  predicate Eligible(x: real) {
    x >= 0.5
  }

  function CountEligible(row: seq<real>): nat {
    if row == [] then 0 else CountEligible(row[..|row| - 1]) + if Eligible(row[|row| - 1]) then 1 else 0
  }

  /** One over the count for each eligible column. */
  function WeightsOf(row: seq<real>): (ws: seq<real>)
    ensures |ws| == |row|
  {
    var count := CountEligible(row);
    var divisor := if count == 0 then 1 else count;
    seq(|row|, i requires 0 <= i < |row| => (if Eligible(row[i]) then 1.0 else 0.0) / divisor as real)
  }

  function TargetWeights(eligibility: seq<seq<real>>): (ws: seq<seq<real>>)
    ensures |ws| == |eligibility|
  {
    seq(|eligibility|, i requires 0 <= i < |eligibility| => WeightsOf(eligibility[i]))
  }

  ghost predicate AnyEligible(row: seq<real>) {
    exists i :: 0 <= i < |row| && Eligible(row[i])
  }

  lemma {:induction false} CountPositive(row: seq<real>)
    ensures CountEligible(row) > 0 <==> AnyEligible(row)
  {
    if row != [] {
      var init := row[..|row| - 1];
      CountPositive(init);
      if AnyEligible(init) {
        var i :| 0 <= i < |init| && Eligible(init[i]);
        assert Eligible(row[i]);
      }
      if AnyEligible(row) && !Eligible(row[|row| - 1]) {
        var i :| 0 <= i < |row| && Eligible(row[i]);
        assert Eligible(init[i]);
      }
    }
  }

  lemma {:induction false} SumOfShares(ws: seq<real>, row: seq<real>, share: real)
    requires |ws| == |row|
    requires forall i :: 0 <= i < |row| ==> ws[i] == if Eligible(row[i]) then share else 0.0
    ensures Sum(ws) == CountEligible(row) as real * share
  {
    if row != [] {
      var n := |row| - 1;
      SumOfShares(ws[..n], row[..n], share);
      AddShare(CountEligible(row[..n]), share);
    }
  }

  lemma AddShare(n: nat, share: real)
    ensures (n + 1) as real * share == n as real * share + share
  {
  }

  /** The weight every eligible column of a row gets. */
  function ShareOf(row: seq<real>): real {
    1.0 / (if CountEligible(row) == 0 then 1 else CountEligible(row)) as real
  }

  lemma WeightAt(row: seq<real>, i: nat)
    requires i < |row|
    ensures WeightsOf(row)[i] == if Eligible(row[i]) then ShareOf(row) else 0.0
    ensures ShareOf(row) > 0.0
  {
  }

  lemma ShareTimesCount(n: nat)
    requires n > 0
    ensures n as real * (1.0 / n as real) == 1.0
  {
  }

  /** For any columns: one and the same positive weight on exactly the eligible ones, summing to one; all
      zero when none is eligible. */
  lemma WeightsSumToOne(row: seq<real>)
    ensures ShareOf(row) > 0.0
    ensures forall i :: 0 <= i < |row| ==> WeightsOf(row)[i] == if Eligible(row[i]) then ShareOf(row) else 0.0
    ensures Sum(WeightsOf(row)) == if AnyEligible(row) then 1.0 else 0.0
  {
    forall i | 0 <= i < |row|
      ensures WeightsOf(row)[i] == if Eligible(row[i]) then ShareOf(row) else 0.0
    {
      WeightAt(row, i);
    }
    CountPositive(row);
    SumOfShares(WeightsOf(row), row, ShareOf(row));
    if CountEligible(row) > 0 {
      ShareTimesCount(CountEligible(row));
    }
  }

  /** One or two legs are eligible on every bar: two unless both risk legs are filtered out. */
  lemma OneOrTwoEligible(qqq: seq<Close>, tlt: seq<Close>, window: nat, b: Buffers, i: nat)
    requires i < |qqq| == |tlt| && window >= 2
    ensures var row := RowAt(qqq, tlt, window, b, i);
            && CountEligible(AsFloats(row)) == (if !row.tqqq && !row.tmf then 1 else 2)
            && Sum(WeightsOf(AsFloats(row))) == 1.0
  {
    var row := RowAt(qqq, tlt, window, b, i);
    var xs := AsFloats(row);
    assert xs[..2][..1] == xs[..1] && xs[..1][..0] == [];
    assert CountEligible(xs) == CountEligible(xs[..2]) + if row.ief then 1 else 0;
    assert CountEligible(xs[..2]) == CountEligible(xs[..1]) + if row.tmf then 1 else 0;
    WeightsSumToOne(xs);
    CountPositive(xs);
  }

  // ---- Regime flips --------------------------------------------------------

  function Sign(x: real): int {
    if x > 0.0 then 1 else if x < 0.0 then -1 else 0
  }

  /** Changes of sign between consecutive weights; missing weights count as zero. */
  function Flips(col: seq<Option<real>>): nat {
    if |col| < 2 then 0
    else
      var a, z := col[|col| - 2], col[|col| - 1];
      Flips(col[..|col| - 1]) +
      if Sign(if a.Some? then a.value else 0.0) != Sign(if z.Some? then z.value else 0.0) then 1 else 0
  }

  function Column(weights: seq<seq<real>>, c: nat): seq<Option<real>>
    requires forall w :: w in weights ==> c < |w|
  {
    seq(|weights|, i requires 0 <= i < |weights| => Some(weights[i][c]))
  }

  function EquityLegFlips(weights: seq<seq<real>>, column: Option<nat>): nat
    requires column.Some? ==> forall w :: w in weights ==> column.value < |w|
  {
    if column.None? then 0 else Flips(Column(weights, column.value))
  }

  function Toggles(states: seq<bool>): nat {
    if |states| < 2 then 0
    else Toggles(states[..|states| - 1]) + if states[|states| - 2] != states[|states| - 1] then 1 else 0
  }

  lemma {:induction false} FlipsAreToggles(col: seq<Option<real>>, states: seq<bool>)
    requires |col| == |states|
    requires forall i :: 0 <= i < |col| ==> col[i].Some? && col[i].value >= 0.0 && (col[i].value > 0.0 <==> states[i])
    ensures Flips(col) == Toggles(states)
  {
    if |col| >= 2 {
      FlipsAreToggles(col[..|col| - 1], states[..|states| - 1]);
    }
  }

  /** From closes to flips: without missing closes, the flip count of the TQQQ weights is the number of
      times its leg changed state between bars. */
  lemma FlipsCountLegToggles(qqq: seq<Close>, tlt: seq<Close>, window: nat, b: Buffers)
    requires AllThere(qqq) && |qqq| == |tlt| && window >= 2
    ensures var rows := seq(|qqq|, i requires 0 <= i < |qqq| => AsFloats(RowAt(qqq, tlt, window, b, i)));
            var states := seq(|qqq|, i requires 0 <= i < |qqq| => LegState(qqq, qqq, window, b, i + 1));
            EquityLegFlips(TargetWeights(rows), Some(0)) == Toggles(states)
  {
    var rows := seq(|qqq|, i requires 0 <= i < |qqq| => AsFloats(RowAt(qqq, tlt, window, b, i)));
    var states := seq(|qqq|, i requires 0 <= i < |qqq| => LegState(qqq, qqq, window, b, i + 1));
    var weights := TargetWeights(rows);
    forall i | 0 <= i < |qqq|
      ensures weights[i][0] >= 0.0 && (weights[i][0] > 0.0 <==> states[i])
    {
      RowsShowStates(qqq, tlt, window, b, i);
      WeightsSumToOne(rows[i]);
    }
    FlipsAreToggles(Column(weights, 0), states);
  }
}
