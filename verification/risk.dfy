/** The pre-trade risk gate and its kill switch. */
module Risk {
  import opened Domain
  import opened Positions

  datatype Bar = Bar(instrument: Instrument, closeTime: int, close: real)

  datatype CheckCode = RC08 | RC09 | RC10 | RC12 | RC13

  datatype Severity = Block | Warn

  datatype Breach = Breach(check: CheckCode, severity: Severity)

  datatype RiskConfig = RiskConfig(
    maxStalenessIntradaySec: int,
    maxStalenessDailySec: int,
    outsideRthAllowed: bool,
    maxArtefactAgeDays: int,
    warnArtefactAgeDays: int,
    isIntraday: bool,
    maxPriceDeviation: real)

  /** A model file: on disk or not, and when it was last written. */
  datatype Artefact = Artefact(name: string, present: bool, mtime: int)

  datatype RiskInputs = RiskInputs(
    lastBar: Option<Bar>, marketOpen: bool, artefacts: seq<Artefact>, reference: Option<real>)

  class KillSwitch {
    var armed: bool
    var reason: string

    constructor ()
      ensures !armed && reason == ""
    {
      armed, reason := false, "";
    }

    /** An empty reason is refused and leaves the latch as it was. */
    method Arm(why: string) returns (ok: bool)
      modifies this
      ensures ok <==> why != ""
      ensures armed == (old(armed) || ok) && reason == if ok then why else old(reason)
    {
      ok := why != "";
      if ok {
        armed, reason := true, why;
      }
    }

    method Clear()
      modifies this
      ensures !armed && reason == ""
    {
      armed, reason := false, "";
    }
  }

  // ---- The checks, as conditions -------------------------------------------

  const MICROS_PER_SECOND := 1000000
  const MICROS_PER_DAY := 86400000000

  function Threshold(c: RiskConfig): int {
    (if c.isIntraday then c.maxStalenessIntradaySec else c.maxStalenessDailySec) * MICROS_PER_SECOND
  }

  predicate FreshData(c: RiskConfig, inputs: RiskInputs, now: int) {
    inputs.lastBar.Some? && now - inputs.lastBar.value.closeTime <= Threshold(c)
  }

  predicate InHours(c: RiskConfig, inputs: RiskInputs) {
    inputs.marketOpen || c.outsideRthAllowed
  }

  function AgeDays(a: Artefact, now: int): real {
    (now - a.mtime) as real / MICROS_PER_DAY as real
  }

  /** Every artefact is on disk and below the hard age; a hard age of zero or less blocks any. */
  predicate FreshArtefacts(c: RiskConfig, inputs: RiskInputs, now: int) {
    && (inputs.artefacts != [] ==> 0 < c.maxArtefactAgeDays)
    && forall a :: a in inputs.artefacts ==> a.present && AgeDays(a, now) < c.maxArtefactAgeDays as real
  }

  predicate SanePrice(c: RiskConfig, order: Order, inputs: RiskInputs) {
    && inputs.reference.Some? && inputs.reference.value > 0.0
    && order.orderType != Mkt && order.orderType != AdaptiveMkt && order.limitPrice.Some?
    ==> Abs(order.limitPrice.value - inputs.reference.value) / inputs.reference.value <= c.maxPriceDeviation
  }

  /** The condition each check guards, in the order they run. */
  predicate Passes(c: RiskConfig, check: CheckCode, armed: bool, order: Order, inputs: RiskInputs, now: int) {
    match check
    case RC13 => !armed
    case RC08 => FreshData(c, inputs, now)
    case RC09 => InHours(c, inputs)
    case RC12 => FreshArtefacts(c, inputs, now)
    case RC10 => SanePrice(c, order, inputs)
  }

  const CHECK_ORDER: seq<CheckCode> := [RC13, RC08, RC09, RC12, RC10]

  class RiskEngine {
    const config: RiskConfig
    const killSwitch: KillSwitch

    constructor (config: RiskConfig, killSwitch: KillSwitch)
      ensures this.config == config && this.killSwitch == killSwitch
    {
      this.config, this.killSwitch := config, killSwitch;
    }

    /** Approved exactly when all five checks pass; dropped exactly when the last breach is the one
        BLOCK, raised by the first check that fails; anything else is an artefact-age warning. */
    method Approve(order: Order, inputs: RiskInputs, now: int) returns (approved: Option<Order>, breaches: seq<Breach>)
      ensures approved == None || approved == Some(order)
      ensures approved.Some? <==>
                forall c :: c in CHECK_ORDER ==> Passes(config, c, killSwitch.armed, order, inputs, now)
      ensures approved.None? <==> breaches != [] && breaches[|breaches| - 1].severity == Block
      ensures forall i :: 0 <= i < |breaches| && breaches[i].severity == Block ==> i == |breaches| - 1
      ensures forall i :: 0 <= i < |breaches| && breaches[i].severity == Warn ==> breaches[i].check == RC12
      ensures approved.None? ==>
                exists k :: 0 <= k < |CHECK_ORDER| && breaches[|breaches| - 1].check == CHECK_ORDER[k] &&
                            !Passes(config, CHECK_ORDER[k], killSwitch.armed, order, inputs, now) &&
                            forall j :: 0 <= j < k ==>
                              Passes(config, CHECK_ORDER[j], killSwitch.armed, order, inputs, now)
    {
      breaches := [];
      assert forall k :: 0 <= k < |CHECK_ORDER| ==> CHECK_ORDER[k] in CHECK_ORDER;
      assert CHECK_ORDER[0] == RC13 && CHECK_ORDER[1] == RC08 && CHECK_ORDER[2] == RC09;
      assert CHECK_ORDER[3] == RC12 && CHECK_ORDER[4] == RC10;
      if killSwitch.armed {
        return None, [Breach(RC13, Block)];
      }
      var stale := CheckStaleData(inputs, now);
      if stale.Some? {
        return None, [stale.value];
      }
      if !inputs.marketOpen && !config.outsideRthAllowed {
        return None, [Breach(RC09, Block)];
      }
      var block, warn := CheckArtefactFreshness(inputs, now);
      if warn.Some? {
        breaches := breaches + [warn.value];
      }
      if block.Some? {
        return None, breaches + [block.value];
      }
      var price := CheckPriceSanity(order, inputs);
      if price.Some? {
        return None, breaches + [price.value];
      }
      approved := Some(order);
    }

    function CheckStaleData(inputs: RiskInputs, now: int): (b: Option<Breach>)
      ensures b.None? <==> FreshData(config, inputs, now)
      ensures b.Some? ==> b.value == Breach(RC08, Block)
    {
      if inputs.lastBar.None? then Some(Breach(RC08, Block))
      else
        var threshold := if config.isIntraday then config.maxStalenessIntradaySec else config.maxStalenessDailySec;
        if now - inputs.lastBar.value.closeTime > threshold * MICROS_PER_SECOND then Some(Breach(RC08, Block)) else None
    }

    function CheckPriceSanity(order: Order, inputs: RiskInputs): (b: Option<Breach>)
      ensures b.None? <==> SanePrice(config, order, inputs)
      ensures b.Some? ==> b.value == Breach(RC10, Block)
    {
      if inputs.reference.None? then None
      else if inputs.reference.value <= 0.0 then None
      else if order.orderType == Mkt || order.orderType == AdaptiveMkt then None
      else if order.limitPrice.None? then None
      else
        var deviation := Abs(order.limitPrice.value - inputs.reference.value) / inputs.reference.value;
        if deviation > config.maxPriceDeviation then Some(Breach(RC10, Block)) else None
    }

    /** Loops over the artefacts keeping the oldest age. */
    method CheckArtefactFreshness(inputs: RiskInputs, now: int) returns (block: Option<Breach>, warn: Option<Breach>)
      ensures block.None? <==> FreshArtefacts(config, inputs, now)
      ensures block.Some? ==> block.value == Breach(RC12, Block) && warn.None?
      ensures warn.Some? ==> warn.value == Breach(RC12, Warn)
      ensures warn.Some? <==>
                && block.None? && inputs.artefacts != []
                && (|| config.warnArtefactAgeDays <= 0
                    || exists a :: a in inputs.artefacts && AgeDays(a, now) >= config.warnArtefactAgeDays as real)
    {
      if inputs.artefacts == [] {
        return None, None;
      }
      var oldest := 0.0;
      for i := 0 to |inputs.artefacts|
        invariant oldest >= 0.0
        invariant oldest == 0.0 || exists a :: a in inputs.artefacts[..i] && AgeDays(a, now) == oldest
        invariant forall a :: a in inputs.artefacts[..i] ==> a.present && AgeDays(a, now) <= oldest
      {
        var a := inputs.artefacts[i];
        assert a in inputs.artefacts;
        assert inputs.artefacts[..i + 1] == inputs.artefacts[..i] + [a];
        if !a.present {
          return Some(Breach(RC12, Block)), None;
        }
        var age := (now - a.mtime) as real / MICROS_PER_DAY as real;
        assert age == AgeDays(a, now);
        if age > oldest {
          oldest := age;
        }
      }
      assert inputs.artefacts[..|inputs.artefacts|] == inputs.artefacts;
      if oldest >= config.maxArtefactAgeDays as real {
        return Some(Breach(RC12, Block)), None;
      }
      if oldest >= config.warnArtefactAgeDays as real {
        return None, Some(Breach(RC12, Warn));
      }
      return None, None;
    }
  }

  // ---- The gate in the configuration's own units -----------------------------

  /** The bar is at most so many seconds old, by the limit for the kind of strategy. */
  predicate Recent(c: RiskConfig, inputs: RiskInputs, now: int) {
    inputs.lastBar.Some? &&
    now - inputs.lastBar.value.closeTime <=
      1000000 * (if c.isIntraday then c.maxStalenessIntradaySec else c.maxStalenessDailySec)
  }

  /** Every file is there and was written less than so many days ago. */
  predicate Current(c: RiskConfig, inputs: RiskInputs, now: int) {
    forall a :: a in inputs.artefacts ==>
      a.present && c.maxArtefactAgeDays > 0 && now - a.mtime < 86400000000 * c.maxArtefactAgeDays
  }

  /** The limit is within so much of the reference, relative to it. */
  predicate InBand(c: RiskConfig, order: Order, inputs: RiskInputs) {
    var reference, limit := inputs.reference, order.limitPrice;
    reference.Some? && reference.value > 0.0 && limit.Some? && order.orderType !in {Mkt, AdaptiveMkt} ==>
      && limit.value - reference.value <= c.maxPriceDeviation * reference.value
      && reference.value - limit.value <= c.maxPriceDeviation * reference.value
  }

  /** What letting an order through means. */
  lemma GateMeans(c: RiskConfig, armed: bool, order: Order, inputs: RiskInputs, now: int)
    ensures (forall check :: check in CHECK_ORDER ==> Passes(c, check, armed, order, inputs, now)) <==>
            && !armed && Recent(c, inputs, now) && (inputs.marketOpen || c.outsideRthAllowed)
            && Current(c, inputs, now) && InBand(c, order, inputs)
  {
    ChecksMean(c, armed, order, inputs, now);
    assert forall k :: 0 <= k < |CHECK_ORDER| ==> CHECK_ORDER[k] in CHECK_ORDER;
    assert CHECK_ORDER[0] == RC13 && CHECK_ORDER[1] == RC08 && CHECK_ORDER[2] == RC09;
    assert CHECK_ORDER[3] == RC12 && CHECK_ORDER[4] == RC10;
  }

  /** Which check drops an order: the kill switch first, then data age, hours, files, and price last. */
  lemma FirstFailure(c: RiskConfig, armed: bool, order: Order, inputs: RiskInputs, now: int, k: nat)
    requires k < |CHECK_ORDER| && !Passes(c, CHECK_ORDER[k], armed, order, inputs, now)
    requires forall j :: 0 <= j < k ==> Passes(c, CHECK_ORDER[j], armed, order, inputs, now)
    ensures CHECK_ORDER[k] ==
            if armed then RC13
            else if !Recent(c, inputs, now) then RC08
            else if !inputs.marketOpen && !c.outsideRthAllowed then RC09
            else if !Current(c, inputs, now) then RC12
            else RC10
  {
    ChecksMean(c, armed, order, inputs, now);
    assert CHECK_ORDER[0] == RC13 && CHECK_ORDER[1] == RC08 && CHECK_ORDER[2] == RC09;
    assert CHECK_ORDER[3] == RC12 && CHECK_ORDER[4] == RC10;
  }

  lemma ChecksMean(c: RiskConfig, armed: bool, order: Order, inputs: RiskInputs, now: int)
    ensures Passes(c, RC13, armed, order, inputs, now) <==> !armed
    ensures Passes(c, RC08, armed, order, inputs, now) <==> Recent(c, inputs, now)
    ensures Passes(c, RC09, armed, order, inputs, now) <==> inputs.marketOpen || c.outsideRthAllowed
    ensures Passes(c, RC12, armed, order, inputs, now) <==> Current(c, inputs, now)
    ensures Passes(c, RC10, armed, order, inputs, now) <==> InBand(c, order, inputs)
  {
    forall a | a in inputs.artefacts
      ensures AgeDays(a, now) < c.maxArtefactAgeDays as real <==> now - a.mtime < 86400000000 * c.maxArtefactAgeDays
    {
      AgeInDays(now - a.mtime, c.maxArtefactAgeDays);
    }
    if inputs.artefacts != [] {
      assert inputs.artefacts[0] in inputs.artefacts;
    }
    if inputs.reference.Some? && inputs.reference.value > 0.0 && order.limitPrice.Some? {
      RelativeTo(Abs(order.limitPrice.value - inputs.reference.value), inputs.reference.value, c.maxPriceDeviation);
    }
  }

  lemma AgeInDays(age: int, days: int)
    ensures age as real / MICROS_PER_DAY as real < days as real <==> age < 86400000000 * days
  {
    assert age < 86400000000 * days <==> age as real < 86400000000.0 * days as real;
  }

  lemma RelativeTo(d: real, reference: real, limit: real)
    requires reference > 0.0
    ensures d / reference <= limit <==> d <= limit * reference
  {
    var x := d / reference;
    assert x * reference == d;
    assert x <= limit <==> (limit - x) * reference >= 0.0;
    assert (limit - x) * reference == limit * reference - x * reference;
  }

  // ---- Market data ---------------------------------------------------------

  ghost predicate SortedBars(bars: seq<Bar>) {
    forall i, j :: 0 <= i < j < |bars| ==> bars[i].closeTime <= bars[j].closeTime
  }

  /** The newest bar closed at or before `t`: never one from the future, and none closer was skipped. */
  method Latest(bars: seq<Bar>, t: int) returns (latest: Option<Bar>)
    ensures latest.Some? ==> latest.value in bars && latest.value.closeTime <= t
    ensures latest.None? <==> bars == [] || bars[0].closeTime > t
    ensures SortedBars(bars) ==>
              && (latest.None? <==> forall b :: b in bars ==> b.closeTime > t)
              && (latest.Some? ==> forall b :: b in bars && b.closeTime <= t ==> b.closeTime <= latest.value.closeTime)
  {
    latest := None;
    for i := 0 to |bars|
      invariant latest.None? <==> i == 0
      invariant i > 0 ==> bars[0].closeTime <= t
      invariant latest.Some? ==> latest.value == bars[i - 1] && latest.value.closeTime <= t
    {
      if bars[i].closeTime <= t {
        latest := Some(bars[i]);
      } else {
        break;
      }
    }
  }
}
