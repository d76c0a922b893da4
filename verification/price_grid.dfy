/** Banded venue price grids and price snapping. */
module PriceGrid {
  import opened Domain
  import opened Rounding

  datatype RoundingPolicy = Nearest | Conservative | Aggressive

  /** One band: from `lowEdge` on, prices move in steps of `increment`. `unit` is the power of ten
      of the increment's last written decimal, to which a snapped price is quantized. */
  datatype Band = Band(lowEdge: real, increment: real, unit: real)

  datatype SnapError = NonPositivePrice | EmptyTable

  function Times(k: int, u: real): real {
    k as real * u
  }

  ghost predicate Multiple(x: real, u: real) {
    exists k: int :: x == Times(k, u)
  }

  ghost predicate ValidBand(b: Band) {
    b.increment > 0.0 && b.lowEdge >= 0.0 && b.unit > 0.0 && Multiple(b.increment, b.unit)
  }

  // ---- Rounding ------------------------------------------------------------

  function RoundSteps(steps: real, side: OrderSide, policy: RoundingPolicy): int {
    match policy
    case Nearest => RoundHalfUp(steps)
    case Conservative => if side == Buy then steps.Floor else Ceiling(steps)
    case Aggressive => if side == Buy then Ceiling(steps) else steps.Floor
  }

  function Quantize(x: real, unit: real): real
    requires unit > 0.0
  {
    Times(RoundHalfEven(x / unit), unit)
  }

  // ---- Band lookup ---------------------------------------------------------

  /** First band with the smallest edge. */
  function MinBand(t: seq<Band>): (b: Band)
    requires t != []
    ensures b in t && forall c :: c in t ==> b.lowEdge <= c.lowEdge
  {
    if |t| == 1 then t[0]
    else
      var m, last := MinBand(t[..|t| - 1]), t[|t| - 1];
      assert t == t[..|t| - 1] + [last];
      if last.lowEdge < m.lowEdge then last else m
  }

  /** The last band with the greatest edge not above `price`; the lowest band when there is none. */
  function Governing(t: seq<Band>, price: real): (b: Band)
    requires t != []
    ensures b in t
    ensures b.lowEdge > price ==> forall c :: c in t ==> b.lowEdge <= c.lowEdge
    ensures b.lowEdge <= price ==> forall c :: c in t && c.lowEdge <= price ==> c.lowEdge <= b.lowEdge
  {
    if |t| == 1 then t[0]
    else
      var g, last := Governing(t[..|t| - 1], price), t[|t| - 1];
      assert t == t[..|t| - 1] + [last];
      if g.lowEdge > price
      then if last.lowEdge < g.lowEdge then last else g
      else if g.lowEdge <= last.lowEdge <= price then last else g
  }

  method BandFor(price: real, t: seq<Band>) returns (chosen: Band)
    requires t != []
    ensures chosen == Governing(t, price)
  {
    chosen := MinBand(t);
    var i := 0;
    while i < |t|
      invariant 0 <= i <= |t|
      invariant chosen.lowEdge > price ==> chosen == MinBand(t)
      invariant i == 0 ==> chosen == MinBand(t)
      invariant i > 0 && chosen.lowEdge > price ==> Governing(t[..i], price) == MinBand(t[..i])
      invariant i > 0 && Governing(t[..i], price).lowEdge > price ==> chosen == MinBand(t)
      invariant i > 0 && Governing(t[..i], price).lowEdge <= price ==> chosen == Governing(t[..i], price)
    {
      assert t[..i + 1][..i] == t[..i] && t[..i + 1][i] == t[i];
      assert t[i] in t && (i > 0 ==> forall c :: c in t[..i] ==> c in t);
      if chosen.lowEdge <= t[i].lowEdge <= price {
        chosen := t[i];
      }
      i := i + 1;
    }
    assert t[..i] == t;
  }

  // ---- Snapping ------------------------------------------------------------

  /** The price a positive `price` is moved to. */
  function Snapped(t: seq<Band>, price: real, side: OrderSide, policy: RoundingPolicy): real
    requires t != [] && forall b :: b in t ==> b.increment > 0.0 && b.unit > 0.0
  {
    var b := Governing(t, price);
    var k := RoundSteps((price - b.lowEdge) / b.increment, side, policy);
    Quantize(b.lowEdge + Times(k, b.increment), b.unit)
  }

  method SnapPrice(price: real, t: seq<Band>, side: OrderSide, policy: RoundingPolicy)
    returns (r: Result<real, SnapError>)
    requires forall b :: b in t ==> b.increment > 0.0 && b.unit > 0.0
    ensures price <= 0.0 ==> r == Err(NonPositivePrice)
    ensures price > 0.0 && t == [] ==> r == Err(EmptyTable)
    ensures price > 0.0 && t != [] ==> r == Ok(Snapped(t, price, side, policy))
  {
    if price <= 0.0 {
      return Err(NonPositivePrice);
    }
    if t == [] {
      return Err(EmptyTable);
    }
    var band := BandFor(price, t);
    var steps := (price - band.lowEdge) / band.increment;
    var k: int;
    match policy {
      case Nearest => k := RoundHalfUp(steps);
      case Conservative =>
        if side == Buy { k := steps.Floor; } else { k := Ceiling(steps); }
      case Aggressive =>
        if side == Buy { k := Ceiling(steps); } else { k := steps.Floor; }
    }
    var snapped := band.lowEdge + Times(k, band.increment);
    r := Ok(Quantize(snapped, band.unit));
  }

  // ---- Grids ---------------------------------------------------------------

  /** A table covering 0 with rising edges, each written to the precision of its own increment. */
  ghost predicate Table(t: seq<Band>) {
    && t != [] && t[0].lowEdge == 0.0
    && (forall i :: 0 <= i < |t| ==> ValidBand(t[i]) && Multiple(t[i].lowEdge, t[i].unit))
    && (forall i, j :: 0 <= i < j < |t| ==> t[i].lowEdge < t[j].lowEdge)
  }

  /** Each band's edge is a tick of the band below it. */
  ghost predicate EdgeAligned(t: seq<Band>) {
    forall i :: 0 < i < |t| ==> Multiple(t[i].lowEdge - t[i - 1].lowEdge, t[i - 1].increment)
  }

  ghost predicate Grid(t: seq<Band>) {
    Table(t) && EdgeAligned(t)
  }

  /** A price the venue accepts: a whole number of ticks above the edge of its own band. */
  ghost predicate Legal(t: seq<Band>, q: real)
    requires t != []
  {
    q >= 0.0 && Multiple(q - Governing(t, q).lowEdge, Governing(t, q).increment)
  }

  // ---- Arithmetic ----------------------------------------------------------

  lemma TimesMono(a: int, b: int, u: real)
    requires u > 0.0
    ensures a <= b <==> Times(a, u) <= Times(b, u)
    ensures a < b <==> Times(a, u) < Times(b, u)
  {
    if a < b {
      assert (b - a) as real * u > 0.0;
    } else if b < a {
      assert (a - b) as real * u > 0.0;
    }
  }

  lemma TimesAdd(a: int, b: int, u: real)
    ensures Times(a + b, u) == Times(a, u) + Times(b, u)
  {
  }

  lemma TimesTimes(k: int, m: int, u: real)
    ensures Times(k, Times(m, u)) == Times(k * m, u)
  {
    assert (k * m) as real == k as real * m as real;
    assert k as real * (m as real * u) == (k as real * m as real) * u;
  }

  lemma DivTimes(x: real, u: real)
    requires u > 0.0
    ensures x == (x / u) * u
  {
  }

  /** `x / u` lies between whole steps exactly as `x` lies between the ticks. */
  lemma StepsBracket(x: real, u: real, k: int)
    requires u > 0.0
    ensures k as real <= x / u <==> Times(k, u) <= x
    ensures x / u <= k as real <==> x <= Times(k, u)
  {
    var s := x / u;
    DivTimes(x, u);
    if k as real <= s { assert (s - k as real) * u >= 0.0; } else { assert (k as real - s) * u > 0.0; }
    if s <= k as real { assert (k as real - s) * u >= 0.0; } else { assert (s - k as real) * u > 0.0; }
  }

  lemma FloorCeiling(x: real, u: real)
    requires u > 0.0 && x >= 0.0
    ensures 0 <= (x / u).Floor <= Ceiling(x / u)
    ensures var lo, hi := Times((x / u).Floor, u), Times(Ceiling(x / u), u); lo < x < hi || lo == x == hi
  {
    StepsBracket(x, u, 0);
    StepsBracket(x, u, (x / u).Floor);
    StepsBracket(x, u, Ceiling(x / u));
  }

  lemma CeilingWithin(x: real, u: real, m: int)
    requires u > 0.0 && x <= Times(m, u)
    ensures Times(Ceiling(x / u), u) <= Times(m, u)
  {
    StepsBracket(x, u, m);
    TimesMono(Ceiling(x / u), m, u);
  }

  lemma QuantizeExact(x: real, unit: real)
    requires unit > 0.0 && Multiple(x, unit)
    ensures Quantize(x, unit) == x
  {
    var k: int :| x == Times(k, unit);
    StepsBracket(x, unit, k);
    assert x / unit == k as real;
  }

  // ---- Bands of a table ----------------------------------------------------

  /** Position of the band governing `p`. */
  lemma {:induction false} BandIndex(t: seq<Band>, p: real) returns (i: nat)
    requires Table(t) && p >= 0.0
    ensures i < |t| && Governing(t, p) == t[i] && t[i].lowEdge <= p
    ensures i + 1 < |t| ==> p < t[i + 1].lowEdge
  {
    var b := Governing(t, p);
    i :| 0 <= i < |t| && t[i] == b;
    assert t[0] in t;
    if i + 1 < |t| {
      assert t[i + 1] in t;
    }
  }

  lemma BandUnique(t: seq<Band>, p: real, i: nat)
    requires Table(t) && p >= 0.0 && i < |t|
    requires t[i].lowEdge <= p && (i + 1 < |t| ==> p < t[i + 1].lowEdge)
    ensures Governing(t, p) == t[i]
  {
    var j := BandIndex(t, p);
    assert forall a, b :: 0 <= a <= b < |t| ==> t[a].lowEdge <= t[b].lowEdge;
  }

  /** Any whole number of ticks in band `i`, up to and including the next edge, is legal. */
  lemma TickLegal(t: seq<Band>, i: nat, k: nat, q: real)
    requires Grid(t) && i < |t| && q == t[i].lowEdge + Times(k, t[i].increment)
    requires i + 1 < |t| ==> q <= t[i + 1].lowEdge
    ensures Legal(t, q)
  {
    TimesMono(0, k, t[i].increment);
    if i + 1 < |t| && q == t[i + 1].lowEdge {
      if i + 2 < |t| { assert t[i + 1].lowEdge < t[i + 2].lowEdge; }
      BandUnique(t, q, i + 1);
      assert q - t[i + 1].lowEdge == Times(0, t[i + 1].increment);
    } else {
      BandUnique(t, q, i);
      assert q - t[i].lowEdge == Times(k, t[i].increment);
    }
  }

  /** Tick values of a band survive quantization. */
  lemma TickRepresentable(t: seq<Band>, i: nat, k: int)
    requires Table(t) && i < |t|
    ensures Quantize(t[i].lowEdge + Times(k, t[i].increment), t[i].unit) == t[i].lowEdge + Times(k, t[i].increment)
  {
    var b := t[i];
    var a: int :| b.lowEdge == Times(a, b.unit);
    var m: int :| b.increment == Times(m, b.unit);
    TimesTimes(k, m, b.unit);
    TimesAdd(a, k * m, b.unit);
    assert b.lowEdge + Times(k, b.increment) == Times(a + k * m, b.unit);
    QuantizeExact(b.lowEdge + Times(k, b.increment), b.unit);
  }

  // ---- What snapping means -------------------------------------------------

  /** The ticks of a band at or below, and at or above, a price. */
  function TickBelow(b: Band, p: real): real
    requires b.increment > 0.0
  {
    b.lowEdge + Times(((p - b.lowEdge) / b.increment).Floor, b.increment)
  }

  function TickAbove(b: Band, p: real): real
    requires b.increment > 0.0
  {
    b.lowEdge + Times(Ceiling((p - b.lowEdge) / b.increment), b.increment)
  }

  lemma TicksBracket(b: Band, p: real)
    requires b.increment > 0.0 && b.lowEdge <= p
    ensures TickBelow(b, p) < p < TickAbove(b, p) || TickBelow(b, p) == p == TickAbove(b, p)
  {
    FloorCeiling(p - b.lowEdge, b.increment);
  }

  lemma TicksLegal(t: seq<Band>, p: real, i: nat)
    requires Grid(t) && i < |t| && t[i].lowEdge <= p && (i + 1 < |t| ==> p < t[i + 1].lowEdge)
    ensures t[i].increment > 0.0 && Legal(t, TickBelow(t[i], p)) && Legal(t, TickAbove(t[i], p))
  {
    var b := t[i];
    FloorCeiling(p - b.lowEdge, b.increment);
    UpWithinBand(t, p, i);
    TickLegal(t, i, ((p - b.lowEdge) / b.increment).Floor, TickBelow(b, p));
    TickLegal(t, i, Ceiling((p - b.lowEdge) / b.increment), TickAbove(b, p));
  }

  /** The legal price just below (`lo`) and just above (`hi`) any price. */
  lemma Neighbours(t: seq<Band>, p: real) returns (i: nat, lo: real, hi: real)
    requires Grid(t) && p >= 0.0
    ensures i < |t| && Governing(t, p) == t[i] && t[i].increment > 0.0
    ensures lo == TickBelow(t[i], p) && hi == TickAbove(t[i], p)
    ensures lo < p < hi || lo == p == hi
    ensures Legal(t, lo) && Legal(t, hi)
    ensures forall q :: Legal(t, q) ==> q <= lo || hi <= q
  {
    i := BandIndex(t, p);
    TicksBracket(t[i], p);
    TicksLegal(t, p, i);
    lo, hi := TickBelow(t[i], p), TickAbove(t[i], p);
    NoneBetween(t, p, i);
  }

  /** Rounding up never passes the next band's edge. */
  lemma UpWithinBand(t: seq<Band>, p: real, i: nat)
    requires Grid(t) && i < |t| && t[i].lowEdge <= p && (i + 1 < |t| ==> p < t[i + 1].lowEdge)
    ensures i + 1 < |t| ==>
              t[i].lowEdge + Times(Ceiling((p - t[i].lowEdge) / t[i].increment), t[i].increment) <= t[i + 1].lowEdge
  {
    var b := t[i];
    if i + 1 < |t| {
      var m: int :| t[i + 1].lowEdge - b.lowEdge == Times(m, b.increment);
      CeilingWithin(p - b.lowEdge, b.increment, m);
    }
  }

  lemma NoneBetween(t: seq<Band>, p: real, i: nat)
    requires Grid(t) && p >= 0.0 && i < |t| && t[i].increment > 0.0
    requires t[i].lowEdge <= p && (i + 1 < |t| ==> p < t[i + 1].lowEdge)
    ensures forall q :: Legal(t, q) ==> q <= TickBelow(t[i], p) || TickAbove(t[i], p) <= q
  {
    var b := t[i];
    FloorCeiling(p - b.lowEdge, b.increment);
    UpWithinBand(t, p, i);
    forall q | Legal(t, q)
      ensures q <= TickBelow(b, p) || TickAbove(b, p) <= q
    {
      LegalOutside(t, p, i, ((p - b.lowEdge) / b.increment).Floor, Ceiling((p - b.lowEdge) / b.increment), q);
    }
  }

  lemma LegalOutside(t: seq<Band>, p: real, i: nat, f: int, c: int, q: real)
    requires Grid(t) && p >= 0.0 && i < |t| && Legal(t, q)
    requires t[i].lowEdge <= p && (i + 1 < |t| ==> p < t[i + 1].lowEdge)
    requires f == ((p - t[i].lowEdge) / t[i].increment).Floor && c == Ceiling((p - t[i].lowEdge) / t[i].increment)
    requires 0 <= f && (i + 1 < |t| ==> t[i].lowEdge + Times(c, t[i].increment) <= t[i + 1].lowEdge)
    ensures q <= t[i].lowEdge + Times(f, t[i].increment) || t[i].lowEdge + Times(c, t[i].increment) <= q
  {
    var b := t[i];
    var j := BandIndex(t, q);
    if j < i {
      assert q < t[j + 1].lowEdge <= b.lowEdge;
      TimesMono(0, f, b.increment);
    } else if i < j {
      assert t[i + 1].lowEdge <= t[j].lowEdge <= q;
    } else {
      var k: int :| q - b.lowEdge == Times(k, b.increment);
      TimesMono(k, f, b.increment);
      TimesMono(c, k, b.increment);
    }
  }

  /** Which policy/side pairs round down. */
  predicate RoundsDown(side: OrderSide, policy: RoundingPolicy) {
    policy != Nearest && ((policy == Conservative) == (side == Buy))
  }

  predicate RoundsUp(side: OrderSide, policy: RoundingPolicy) {
    policy != Nearest && !RoundsDown(side, policy)
  }

  function Distance(a: real, b: real): real {
    if a <= b then b - a else a - b
  }

  /** Snapping picks the greatest legal price below, the least above, or the closest (the upper on a tie). */
  ghost predicate PicksFor(t: seq<Band>, p: real, side: OrderSide, policy: RoundingPolicy, s: real)
    requires t != []
  {
    && Legal(t, s)
    && (RoundsDown(side, policy) ==> s <= p && forall q :: Legal(t, q) && q <= p ==> q <= s)
    && (RoundsUp(side, policy) ==> p <= s && forall q :: Legal(t, q) && p <= q ==> s <= q)
    && (policy == Nearest ==> forall q :: Legal(t, q) ==>
          Distance(s, p) < Distance(q, p) || (Distance(s, p) == Distance(q, p) && q <= s))
  }

  lemma SnapPicksLegalPrice(t: seq<Band>, p: real, side: OrderSide, policy: RoundingPolicy)
    requires Grid(t) && p >= 0.0
    ensures PicksFor(t, p, side, policy, Snapped(t, p, side, policy))
  {
    var i, lo, hi := Neighbours(t, p);
    SnapIsNeighbour(t, p, side, policy, i, lo, hi);
    NeighbourPicks(t, p, side, policy, lo, hi, Snapped(t, p, side, policy));
  }

  lemma NeighbourPicks(t: seq<Band>, p: real, side: OrderSide, policy: RoundingPolicy, lo: real, hi: real, s: real)
    requires t != [] && (lo < p < hi || lo == p == hi) && Legal(t, lo) && Legal(t, hi)
    requires forall q :: Legal(t, q) ==> q <= lo || hi <= q
    requires RoundsDown(side, policy) ==> s == lo
    requires RoundsUp(side, policy) ==> s == hi
    requires policy == Nearest ==> s == if hi - p <= p - lo then hi else lo
    ensures PicksFor(t, p, side, policy, s)
  {
    assert Legal(t, s);
  }

  /** Snapping returns one of the two neighbouring ticks. */
  lemma SnapIsNeighbour(t: seq<Band>, p: real, side: OrderSide, policy: RoundingPolicy, i: nat, lo: real, hi: real)
    requires Table(t) && i < |t| && Governing(t, p) == t[i] && t[i].lowEdge <= p
    requires lo == t[i].lowEdge + Times(((p - t[i].lowEdge) / t[i].increment).Floor, t[i].increment)
    requires hi == t[i].lowEdge + Times(Ceiling((p - t[i].lowEdge) / t[i].increment), t[i].increment)
    ensures RoundsDown(side, policy) ==> Snapped(t, p, side, policy) == lo
    ensures RoundsUp(side, policy) ==> Snapped(t, p, side, policy) == hi
    ensures policy == Nearest ==> Snapped(t, p, side, policy) == if hi - p <= p - lo then hi else lo
    ensures policy == Nearest ==> Distance(Snapped(t, p, side, policy), p) <= t[i].increment / 2.0
  {
    var x, u := p - t[i].lowEdge, t[i].increment;
    TickRepresentable(t, i, RoundSteps(x / u, side, policy));
    NearestHalf(x, u);
  }

  /** Rounding half up keeps the nearer neighbour, and the upper one when both are equally near. */
  lemma NearestHalf(x: real, u: real)
    requires u > 0.0 && x >= 0.0
    ensures var lo, hi, s := Times((x / u).Floor, u), Times(Ceiling(x / u), u), Times(RoundHalfUp(x / u), u);
            && s == (if hi - x <= x - lo then hi else lo)
            && Distance(s, x) <= u / 2.0
  {
    var f := (x / u).Floor;
    StepsBracket(x, u, 0);
    StepsBracket(x, u, f);
    StepsBracket(x, u, f + 1);
    assert Times(f + 1, u) == Times(f, u) + u by { TimesAdd(f, 1, u); }
    HalfStep(x, u, f);
    if x / u == f as real {
      assert x == Times(f, u);
    } else {
      assert Ceiling(x / u) == f + 1;
    }
  }

  lemma HalfStep(x: real, u: real, f: int)
    requires u > 0.0
    ensures x / u - f as real < 0.5 <==> x - Times(f, u) < u / 2.0
  {
    var d := x / u - f as real;
    DivTimes(x, u);
    assert x - Times(f, u) == d * u;
    if d < 0.5 { assert (0.5 - d) * u > 0.0; } else { assert (d - 0.5) * u >= 0.0; }
  }

  /** A nearest snap moves the price by at most half the tick of its band. */
  lemma NearestMovesHalfTick(t: seq<Band>, p: real, side: OrderSide)
    requires Grid(t) && p >= 0.0
    ensures Distance(Snapped(t, p, side, Nearest), p) <= Governing(t, p).increment / 2.0
  {
    var i, lo, hi := Neighbours(t, p);
    SnapIsNeighbour(t, p, side, Nearest, i, lo, hi);
  }

  /** Snapping respects price order, across bands too. */
  lemma SnapMonotone(t: seq<Band>, p: real, p': real, side: OrderSide, policy: RoundingPolicy)
    requires Grid(t) && 0.0 <= p <= p'
    ensures Snapped(t, p, side, policy) <= Snapped(t, p', side, policy)
  {
    SnapPicksLegalPrice(t, p, side, policy);
    SnapPicksLegalPrice(t, p', side, policy);
    assert RoundsDown(side, policy) || RoundsUp(side, policy) || policy == Nearest;
    var s, s' := Snapped(t, p, side, policy), Snapped(t, p', side, policy);
    assert Legal(t, s) && Legal(t, s');
  }

  /** Legal prices are exactly the fixed points, so snapping twice changes nothing. */
  lemma SnapIdempotent(t: seq<Band>, p: real, side: OrderSide, policy: RoundingPolicy)
    requires Grid(t) && p >= 0.0
    ensures Legal(t, p) <==> Snapped(t, p, side, policy) == p
    ensures Snapped(t, Snapped(t, p, side, policy), side, policy) == Snapped(t, p, side, policy)
  {
    SnapPicksLegalPrice(t, p, side, policy);
    var s := Snapped(t, p, side, policy);
    SnapPicksLegalPrice(t, s, side, policy);
    assert Legal(t, s) && Legal(t, Snapped(t, s, side, policy));
    assert RoundsDown(side, policy) || RoundsUp(side, policy) || policy == Nearest;
  }

  // ---- Where the literal claims stop ---------------------------------------

  /** Edge alignment is exactly what order preservation needs. */
  lemma MonotoneIffAligned(t: seq<Band>)
    requires Table(t)
    ensures EdgeAligned(t) <==>
            (forall p, p', side, policy :: 0.0 < p <= p' ==>
                                             Snapped(t, p, side, policy) <= Snapped(t, p', side, policy))
  {
    if EdgeAligned(t) {
      forall p, p', side, policy | 0.0 < p <= p'
        ensures Snapped(t, p, side, policy) <= Snapped(t, p', side, policy)
      {
        SnapMonotone(t, p, p', side, policy);
      }
    } else {
      var i :| 0 < i < |t| && !Multiple(t[i].lowEdge - t[i - 1].lowEdge, t[i - 1].increment);
      var p := MisalignedOvershoots(t, i);
    }
  }

  lemma MisalignedOvershoots(t: seq<Band>, i: nat) returns (p: real)
    requires Table(t) && 0 < i < |t|
    requires !Multiple(t[i].lowEdge - t[i - 1].lowEdge, t[i - 1].increment)
    ensures 0.0 < p < t[i].lowEdge
    ensures Snapped(t, p, Buy, Aggressive) > t[i].lowEdge == Snapped(t, t[i].lowEdge, Buy, Aggressive)
  {
    var b, edge := t[i - 1], t[i].lowEdge;
    var k := ((edge - b.lowEdge) / b.increment).Floor;
    var y := Overshoot(edge - b.lowEdge, b.increment, k);
    p := b.lowEdge + y;
    assert p - b.lowEdge == y;
    BandUnique(t, p, i - 1);
    TickRepresentable(t, i - 1, k + 1);
    if i + 1 < |t| { assert edge < t[i + 1].lowEdge; }
    BandUnique(t, edge, i);
    assert (edge - edge) / t[i].increment == 0.0;
    TickRepresentable(t, i, 0);
  }

  lemma Overshoot(x: real, u: real, k: int) returns (y: real)
    requires u > 0.0 && x > 0.0 && k == (x / u).Floor && !Multiple(x, u)
    ensures 0.0 < y < x && Ceiling(y / u) == k + 1 && Times(k + 1, u) > x
  {
    StepsBracket(x, u, 0);
    StepsBracket(x, u, k);
    StepsBracket(x, u, k + 1);
    assert x != Times(k, u) && x != Times(k + 1, u);
    TimesMono(0, k, u);
    y := (Times(k, u) + x) / 2.0;
    StepsBracket(y, u, k);
    StepsBracket(y, u, k + 1);
    assert k as real < y / u <= (k + 1) as real;
  }

  /** A positive price below the first tick may snap to zero. */
  lemma SubTickSnapsToZero(t: seq<Band>, p: real, side: OrderSide, policy: RoundingPolicy)
    requires Grid(t) && 0.0 < p < t[0].increment && (1 < |t| ==> p < t[1].lowEdge)
    ensures Snapped(t, p, side, policy) == 0.0 <==>
            RoundsDown(side, policy) || (policy == Nearest && p < t[0].increment / 2.0)
  {
    BandUnique(t, p, 0);
    var u := t[0].increment;
    StepsBracket(p, u, 0);
    StepsBracket(p, u, 1);
    assert Times(0, u) == 0.0 && Times(1, u) == u;
    assert 0.0 < p / u < 1.0;
    HalfStep(p, u, 0);
    TickRepresentable(t, 0, RoundSteps(p / u, side, policy));
  }

  /** Rounding up at an edge, in the band below it, gives a legal price. */
  ghost predicate EdgesRoundLegally(t: seq<Band>)
    requires Table(t)
  {
    forall i :: 0 < i < |t| ==> Legal(t, EdgeTick(t, i))
  }

  function EdgeTick(t: seq<Band>, i: nat): real
    requires 0 < i < |t| && t[i - 1].increment > 0.0
  {
    TickAbove(t[i - 1], t[i].lowEdge)
  }

  /** What legality needs, for every price, side and policy: not aligned edges, but exactly that rounding up
      at each edge, with the tick of the band below, stays legal. */
  lemma LegalIffEdgesRound(t: seq<Band>)
    requires Table(t)
    ensures EdgesRoundLegally(t) <==> (forall p, side, policy :: p > 0.0 ==> Legal(t, Snapped(t, p, side, policy)))
  {
    if EdgesRoundLegally(t) {
      forall p, side, policy | p > 0.0
        ensures Legal(t, Snapped(t, p, side, policy))
      {
        SnapLegal(t, p, side, policy);
      }
    } else {
      var i :| 0 < i < |t| && !Legal(t, EdgeTick(t, i));
      var p := SnapsToEdgeTick(t, i);
    }
  }

  lemma SnapLegal(t: seq<Band>, p: real, side: OrderSide, policy: RoundingPolicy)
    requires Table(t) && EdgesRoundLegally(t) && p > 0.0
    ensures Legal(t, Snapped(t, p, side, policy))
  {
    var i := BandIndex(t, p);
    var b := t[i];
    FloorCeiling(p - b.lowEdge, b.increment);
    SnapIsNeighbour(t, p, side, policy, i, TickBelow(b, p), TickAbove(b, p));
    TickInside(t, i, ((p - b.lowEdge) / b.increment).Floor, TickBelow(b, p));
    if i + 1 < |t| && TickAbove(b, p) >= t[i + 1].lowEdge {
      SameTickAbove(b, p, t[i + 1].lowEdge);
      assert TickAbove(b, p) == EdgeTick(t, i + 1);
    } else {
      TickInside(t, i, Ceiling((p - b.lowEdge) / b.increment), TickAbove(b, p));
    }
    assert RoundsDown(side, policy) || RoundsUp(side, policy) || policy == Nearest;
  }

  /** A tick short of the next edge is legal. */
  lemma TickInside(t: seq<Band>, i: nat, k: nat, q: real)
    requires Table(t) && i < |t| && q == t[i].lowEdge + Times(k, t[i].increment)
    requires i + 1 < |t| ==> q < t[i + 1].lowEdge
    ensures Legal(t, q)
  {
    TimesMono(0, k, t[i].increment);
    BandUnique(t, q, i);
    assert q - t[i].lowEdge == Times(k, t[i].increment);
  }

  /** A price whose tick above reaches past `edge` has the tick above of the edge. */
  lemma SameTickAbove(b: Band, p: real, edge: real)
    requires b.increment > 0.0 && b.lowEdge <= p < edge <= TickAbove(b, p)
    ensures TickAbove(b, edge) == TickAbove(b, p)
  {
    var x, e, c := p - b.lowEdge, edge - b.lowEdge, Ceiling((p - b.lowEdge) / b.increment);
    StepsBracket(x, b.increment, c - 1);
    StepsBracket(e, b.increment, c - 1);
    StepsBracket(e, b.increment, c);
    assert Ceiling(e / b.increment) == c;
  }

  /** Some price just under an edge is moved to the edge's tick. */
  lemma SnapsToEdgeTick(t: seq<Band>, i: nat) returns (p: real)
    requires Table(t) && 0 < i < |t|
    ensures p > 0.0 && Snapped(t, p, Buy, Aggressive) == EdgeTick(t, i)
  {
    var b, x := t[i - 1], t[i].lowEdge - t[i - 1].lowEdge;
    var u := b.increment;
    var c := Ceiling(x / u);
    StepsBracket(x, u, 0);
    StepsBracket(x, u, c - 1);
    StepsBracket(x, u, c);
    TimesMono(0, c - 1, u);
    var y := (Times(c - 1, u) + x) / 2.0;
    StepsBracket(y, u, c - 1);
    StepsBracket(y, u, c);
    assert Ceiling(y / u) == c;
    p := b.lowEdge + y;
    assert p - b.lowEdge == y;
    BandUnique(t, p, i - 1);
    TickRepresentable(t, i - 1, c);
  }

  /** Quantizing to the increment's last written digit keeps every tick of a band if and only if the band's
      edge is written no more finely. */
  lemma TicksSurviveIff(b: Band)
    requires b.unit > 0.0 && Multiple(b.increment, b.unit)
    ensures (forall k: int :: Quantize(TickAt(b, k), b.unit) == TickAt(b, k)) <==> Multiple(b.lowEdge, b.unit)
  {
    if Multiple(b.lowEdge, b.unit) {
      forall k: int
        ensures Quantize(TickAt(b, k), b.unit) == TickAt(b, k)
      {
        var a: int :| b.lowEdge == Times(a, b.unit);
        var m: int :| b.increment == Times(m, b.unit);
        TimesTimes(k, m, b.unit);
        TimesAdd(a, k * m, b.unit);
        assert TickAt(b, k) == Times(a + k * m, b.unit);
        QuantizeExact(TickAt(b, k), b.unit);
      }
    }
    if forall k: int :: Quantize(TickAt(b, k), b.unit) == TickAt(b, k) {
      assert TickAt(b, 0) == b.lowEdge;
      assert b.lowEdge == Times(RoundHalfEven(b.lowEdge / b.unit), b.unit);
    }
  }

  function TickAt(b: Band, k: int): real {
    b.lowEdge + Times(k, b.increment)
  }
}
