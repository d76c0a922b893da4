/** The token-bucket rate limiter: a bound on grants in every time window, and termination. */
module RateLimiting {
  import opened Domain
  import opened Rounding

  datatype Bucket = Bucket(capacity: nat, refillPerSecond: real)

  predicate ValidBucket(b: Bucket) {
    b.capacity > 0 && b.refillPerSecond > 0.0
  }

  /** Tokens on hand, as of the last refill (microseconds). */
  datatype Level = Level(available: real, lastRefill: int)

  function Seconds(us: int): real {
    us as real / 1000000.0
  }

  function Earned(b: Bucket, us: int): real {
    b.refillPerSecond * Seconds(us)
  }

  function Refill(b: Bucket, l: Level, now: int): Level {
    if now <= l.lastRefill then l
    else
      var full := l.available + Earned(b, now - l.lastRefill);
      Level(if full <= b.capacity as real then full else b.capacity as real, now)
  }

  /** What a caller does between two suspensions: one turn of an acquire loop, or a metrics read. */
  datatype Op = Attempt(tokens: nat, now: int) | Metrics(now: int)

  function Tokens(op: Op): nat {
    if op.Attempt? then op.tokens else 0
  }

  predicate Grants(b: Bucket, l: Level, op: Op) {
    op.Attempt? && Refill(b, l, op.now).available >= op.tokens as real
  }

  function Turn(b: Bucket, l: Level, op: Op): Level {
    var l' := Refill(b, l, op.now);
    if Grants(b, l, op) then l'.(available := l'.available - op.tokens as real) else l'
  }

  /** Any interleaving of any number of waiters is a sequence of turns. */
  function Run(b: Bucket, l: Level, ops: seq<Op>): Level {
    if ops == [] then l else Turn(b, Run(b, l, ops[..|ops| - 1]), ops[|ops| - 1])
  }

  function Granted(b: Bucket, l: Level, ops: seq<Op>): nat {
    if ops == [] then 0
    else
      var init, op := ops[..|ops| - 1], ops[|ops| - 1];
      Granted(b, l, init) + if Grants(b, Run(b, l, init), op) then Tokens(op) else 0
  }

  function FullBucket(b: Bucket, start: int): Level {
    Level(b.capacity as real, start)
  }

  predicate InRange(b: Bucket, l: Level) {
    0.0 <= l.available <= b.capacity as real
  }

  /** The clock never runs backwards. */
  ghost predicate Monotone(start: int, ops: seq<Op>) {
    && (forall i :: 0 <= i < |ops| ==> start <= ops[i].now)
    && (forall i, j :: 0 <= i < j < |ops| ==> ops[i].now <= ops[j].now)
  }

  // ---- Levels --------------------------------------------------------------

  lemma EarnedAdds(b: Bucket, us: int, us': int)
    ensures Earned(b, us + us') == Earned(b, us) + Earned(b, us')
  {
    assert Seconds(us + us') == Seconds(us) + Seconds(us');
  }

  lemma EarnedMonotone(b: Bucket, us: int, us': int)
    requires ValidBucket(b) && us <= us'
    ensures Earned(b, us) <= Earned(b, us')
  {
    assert b.refillPerSecond * (Seconds(us') - Seconds(us)) >= 0.0;
  }

  /** A turn spends what it grants and earns no more than the elapsed time. */
  lemma TurnBudget(b: Bucket, l: Level, op: Op)
    requires ValidBucket(b) && InRange(b, l)
    ensures var l' := Turn(b, l, op);
            && InRange(b, l') && l'.lastRefill == (if op.now <= l.lastRefill then l.lastRefill else op.now)
            && (if Grants(b, l, op) then Tokens(op) as real else 0.0) + l'.available
               <= l.available + Earned(b, l'.lastRefill - l.lastRefill)
  {
    if op.now <= l.lastRefill {
      assert Earned(b, 0) == 0.0;
    } else {
      EarnedMonotone(b, 0, op.now - l.lastRefill);
      assert Earned(b, 0) == 0.0;
    }
  }

  lemma {:induction false} RunInRange(b: Bucket, start: int, ops: seq<Op>)
    requires ValidBucket(b) && Monotone(start, ops)
    ensures var l := Run(b, FullBucket(b, start), ops);
            InRange(b, l) && l.lastRefill == if ops == [] then start else ops[|ops| - 1].now
  {
    if ops != [] {
      var init := ops[..|ops| - 1];
      RunInRange(b, start, init);
      TurnBudget(b, Run(b, FullBucket(b, start), init), ops[|ops| - 1]);
    }
  }

  // ---- The window bound ----------------------------------------------------

  /** From any level, a non-empty stretch of turns grants at most a full bucket plus what it earns. */
  lemma {:induction false} StretchBudget(b: Bucket, l: Level, ops: seq<Op>)
    requires ValidBucket(b) && InRange(b, l) && ops != [] && Monotone(l.lastRefill, ops)
    ensures var l' := Run(b, l, ops);
            && InRange(b, l') && l'.lastRefill == ops[|ops| - 1].now
            && Granted(b, l, ops) as real + l'.available
               <= b.capacity as real + Earned(b, ops[|ops| - 1].now - ops[0].now)
  {
    var init, op := ops[..|ops| - 1], ops[|ops| - 1];
    if init == [] {
      FirstTurn(b, l, op);
    } else {
      StretchBudget(b, l, init);
      var l1 := Run(b, l, init);
      TurnBudget(b, l1, op);
      EarnedAdds(b, init[|init| - 1].now - ops[0].now, op.now - l1.lastRefill);
    }
  }

  lemma FirstTurn(b: Bucket, l: Level, op: Op)
    requires ValidBucket(b) && InRange(b, l) && l.lastRefill <= op.now
    ensures var l' := Turn(b, l, op);
            && InRange(b, l') && l'.lastRefill == op.now
            && (if Grants(b, l, op) then Tokens(op) as real else 0.0) + l'.available <= b.capacity as real
    ensures Run(b, l, [op]) == Turn(b, l, op)
    ensures Granted(b, l, [op]) == if Grants(b, l, op) then Tokens(op) else 0
    ensures Earned(b, 0) == 0.0
  {
    assert [op][..0] == [];
    if op.now > l.lastRefill {
      EarnedMonotone(b, 0, op.now - l.lastRefill);
    }
  }

  /** Tokens granted by turns `i..j` of a run that starts full. */
  function GrantedBetween(b: Bucket, start: int, ops: seq<Op>, i: nat, j: nat): nat
    requires i <= j <= |ops|
  {
    Granted(b, Run(b, FullBucket(b, start), ops[..i]), ops[i..j])
  }

  /** However many waiters interleave: turns within any `d` microseconds grant at most
      capacity + rate × d, and the level never leaves [0, capacity]. */
  lemma WindowBound(b: Bucket, start: int, ops: seq<Op>, i: nat, j: nat, d: nat)
    requires ValidBucket(b) && Monotone(start, ops) && i <= j <= |ops|
    requires i < j ==> ops[j - 1].now - ops[i].now <= d
    ensures GrantedBetween(b, start, ops, i, j) as real <= b.capacity as real + Earned(b, d)
    ensures InRange(b, Run(b, FullBucket(b, start), ops))
  {
    var prefix, stretch := ops[..i], ops[i..j];
    RunInRange(b, start, ops);
    RunInRange(b, start, prefix);
    MonotoneStretch(b, start, ops, i, j);
    StretchBound(b, Run(b, FullBucket(b, start), prefix), stretch, d);
  }

  lemma MonotoneStretch(b: Bucket, start: int, ops: seq<Op>, i: nat, j: nat)
    requires Monotone(start, ops) && i <= j <= |ops|
    ensures Monotone(start, ops[..i]) && Monotone(if i == 0 then start else ops[i - 1].now, ops[i..j])
  {
  }

  lemma StretchBound(b: Bucket, l: Level, ops: seq<Op>, d: nat)
    requires ValidBucket(b) && InRange(b, l) && Monotone(l.lastRefill, ops)
    requires ops != [] ==> ops[|ops| - 1].now - ops[0].now <= d
    ensures Granted(b, l, ops) as real <= b.capacity as real + Earned(b, d)
  {
    if ops == [] {
      EarnedMonotone(b, 0, d);
      assert Earned(b, 0) == 0.0;
    } else {
      StretchBudget(b, l, ops);
      EarnedMonotone(b, ops[|ops| - 1].now - ops[0].now, d);
    }
  }

  // ---- The IB defaults -----------------------------------------------------

  const IB_GLOBAL := Bucket(20, 20.0)
  const IB_HISTORICAL := Bucket(50, 50.0 / 600.0)
  const SECOND: nat := 1000000

  /** At most 40 messages in any second: under the venue's 50 per second. */
  lemma GlobalUnderCap(start: int, ops: seq<Op>, i: nat, j: nat)
    requires Monotone(start, ops) && i <= j <= |ops|
    requires i < j ==> ops[j - 1].now - ops[i].now <= SECOND
    ensures GrantedBetween(IB_GLOBAL, start, ops, i, j) <= 40 < 50
  {
    WindowBound(IB_GLOBAL, start, ops, i, j, SECOND);
    assert Earned(IB_GLOBAL, SECOND) == 20.0;
  }

  /** At most 100 historical requests in any ten minutes. */
  lemma HistoricalBound(start: int, ops: seq<Op>, i: nat, j: nat)
    requires Monotone(start, ops) && i <= j <= |ops|
    requires i < j ==> ops[j - 1].now - ops[i].now <= 600 * SECOND
    ensures GrantedBetween(IB_HISTORICAL, start, ops, i, j) <= 100
  {
    WindowBound(IB_HISTORICAL, start, ops, i, j, 600 * SECOND);
    assert Earned(IB_HISTORICAL, 600 * SECOND) == 50.0;
  }

  lemma RunSnoc(b: Bucket, l: Level, ops: seq<Op>, op: Op)
    ensures Run(b, l, ops + [op]) == Turn(b, Run(b, l, ops), op)
    ensures Granted(b, l, ops + [op]) == Granted(b, l, ops) + if Grants(b, Run(b, l, ops), op) then Tokens(op) else 0
  {
    assert (ops + [op])[..|ops|] == ops;
  }

  // ---- The exact maximum -----------------------------------------------------

  /** Requests the limiter takes: at least one token, at most a full bucket. */
  ghost predicate LegalOps(b: Bucket, ops: seq<Op>) {
    forall i :: 0 <= i < |ops| && ops[i].Attempt? ==> 1 <= ops[i].tokens <= b.capacity
  }

  /** In every monotone run, turns within any `d` microseconds grant at most `n`. */
  ghost predicate AtMost(b: Bucket, d: nat, n: nat) {
    forall start, ops, i: nat, j: nat ::
      InWindow(b, start, ops, i, j, d) ==> GrantedBetween(b, start, ops, i, j) <= n
  }

  ghost predicate InWindow(b: Bucket, start: int, ops: seq<Op>, i: nat, j: nat, d: nat) {
    Monotone(start, ops) && LegalOps(b, ops) && i <= j <= |ops| && (i < j ==> ops[j - 1].now - ops[i].now <= d)
  }

  /** Take everything whole at once, and then, every microsecond, whatever whole tokens there are. */
  function Greedy(b: Bucket, start: int, n: nat): seq<Op> {
    if n == 0 then [Attempt(b.capacity, start)]
    else
      var ops := Greedy(b, start, n - 1);
      var whole := Refill(b, Run(b, FullBucket(b, start), ops), start + n).available.Floor;
      ops + [if whole >= 1 then Attempt(whole, start + n) else Metrics(start + n)]
  }

  ghost predicate Grasped(b: Bucket, start: int, n: nat, ops: seq<Op>) {
    var l := Run(b, FullBucket(b, start), ops);
    && |ops| == n + 1 && ops[0].now == start && ops[n].now == start + n && Monotone(start, ops) && LegalOps(b, ops)
    && 0.0 <= l.available < 1.0 && l.lastRefill == start + n
    && Granted(b, FullBucket(b, start), ops) as real + l.available == b.capacity as real + Earned(b, n)
  }

  lemma {:induction false} GreedyGrasps(b: Bucket, start: int, n: nat)
    requires ValidBucket(b) && Earned(b, 1) + 1.0 <= b.capacity as real
    ensures Grasped(b, start, n, Greedy(b, start, n))
  {
    if n == 0 {
      FirstGrasp(b, start);
    } else {
      GreedyGrasps(b, start, n - 1);
      NextGrasp(b, start, n, Greedy(b, start, n - 1));
    }
  }

  lemma FirstGrasp(b: Bucket, start: int)
    requires ValidBucket(b)
    ensures Grasped(b, start, 0, [Attempt(b.capacity, start)])
  {
    var a := Attempt(b.capacity, start);
    RunSnoc(b, FullBucket(b, start), [], a);
    assert [] + [a] == [a] && Grants(b, FullBucket(b, start), a);
    assert Earned(b, 0) == 0.0;
  }

  lemma NextGrasp(b: Bucket, start: int, n: nat, ops: seq<Op>)
    requires ValidBucket(b) && Earned(b, 1) + 1.0 <= b.capacity as real
    requires n > 0 && Grasped(b, start, n - 1, ops)
    ensures var l := Refill(b, Run(b, FullBucket(b, start), ops), start + n);
            var op := if l.available.Floor >= 1 then Attempt(l.available.Floor, start + n) else Metrics(start + n);
            Grasped(b, start, n, ops + [op])
  {
    var full := FullBucket(b, start);
    var l0 := Run(b, full, ops);
    var l := Refill(b, l0, start + n);
    EarnedAdds(b, n - 1, 1);
    EarnedMonotone(b, 0, 1);
    assert Earned(b, 0) == 0.0;
    assert l.available == l0.available + Earned(b, 1);
    var whole := l.available.Floor;
    var op := if whole >= 1 then Attempt(whole, start + n) else Metrics(start + n);
    RunSnoc(b, full, ops, op);
    assert Grants(b, l0, op) <==> op.Attempt?;
    assert whole as real <= b.capacity as real;
  }

  /** The most a window can grant: the bucket and all whole tokens earned in it. The bound is reached whenever
      the bucket holds a token and what a microsecond earns. */
  lemma MostInWindow(b: Bucket, d: nat, n: nat)
    requires ValidBucket(b) && Earned(b, 1) + 1.0 <= b.capacity as real
    ensures AtMost(b, d, n) <==> b.capacity + Earned(b, d).Floor <= n
  {
    if b.capacity + Earned(b, d).Floor <= n {
      forall start, ops, i: nat, j: nat | InWindow(b, start, ops, i, j, d)
        ensures GrantedBetween(b, start, ops, i, j) <= n
      {
        WindowBound(b, start, ops, i, j, d);
      }
    }
    if AtMost(b, d, n) {
      var ops := Greedy(b, 0, d);
      GreedyGrasps(b, 0, d);
      assert InWindow(b, 0, ops, 0, |ops|, d);
      assert ops[..0] == [] && ops[0..|ops|] == ops;
      assert GrantedBetween(b, 0, ops, 0, |ops|) == Granted(b, FullBucket(b, 0), ops);
    }
  }

  /** The documented 60 requests per ten minutes hold for windows shorter than 132 seconds, and no others. */
  lemma HistoricalSixtyIff(d: nat)
    ensures AtMost(IB_HISTORICAL, d, 60) <==> d < 132 * SECOND
  {
    MostInWindow(IB_HISTORICAL, d, 60);
    assert Earned(IB_HISTORICAL, d) == d as real / 12000000.0;
  }

  /** Neither default can be stated more tightly: 40 a second and 100 in ten minutes are reached. */
  lemma DefaultsAreTight(n: nat)
    ensures AtMost(IB_GLOBAL, SECOND, n) <==> 40 <= n
    ensures AtMost(IB_HISTORICAL, 600 * SECOND, n) <==> 100 <= n
  {
    MostInWindow(IB_GLOBAL, SECOND, n);
    MostInWindow(IB_HISTORICAL, 600 * SECOND, n);
    assert Earned(IB_GLOBAL, SECOND) == 20.0 && Earned(IB_HISTORICAL, 600 * SECOND) == 50.0;
  }

  /** The bound needs the monotone clock: after a jump ahead and back, one instant grants two buckets. */
  lemma ClockJumpDoublesBurst(b: Bucket, start: int)
    requires ValidBucket(b)
    ensures exists far :: far > start &&
              var ops := [Attempt(b.capacity, start), Metrics(far), Attempt(b.capacity, start)];
              !Monotone(start, ops) && GrantedBetween(b, start, ops, 0, 3) == 2 * b.capacity
  {
    var us := Ceiling(b.capacity as real / b.refillPerSecond * 1000000.0) + 1;
    var a, m := Attempt(b.capacity, start), Metrics(start + us);
    var ops := [a, m, a];
    EarnsFullBucket(b, us);
    assert ops[1].now > ops[2].now;
    assert ops[..0] == [] && ops[0..3] == ops;
    assert [] + [a] == [a] && [a] + [m] == [a, m] && [a, m] + [a] == ops;
    var l0 := FullBucket(b, start);
    var l1 := Level(0.0, start);
    var l2 := Level(b.capacity as real, start + us);
    assert Grants(b, l0, a) && Turn(b, l0, a) == l1;
    assert Turn(b, l1, m) == l2 && !Grants(b, l1, m) && Grants(b, l2, a);
    RunSnoc(b, l0, [], a);
    RunSnoc(b, l0, [a], m);
    RunSnoc(b, l0, [a, m], a);
  }

  lemma EarnsFullBucket(b: Bucket, us: int)
    requires ValidBucket(b) && us == Ceiling(b.capacity as real / b.refillPerSecond * 1000000.0) + 1
    ensures us > 0 && Earned(b, us) >= b.capacity as real
  {
    var s := b.capacity as real / b.refillPerSecond;
    assert s > 0.0 && b.refillPerSecond * s == b.capacity as real;
    assert us as real >= s * 1000000.0;
    assert Seconds(us) >= s;
    assert b.refillPerSecond * (Seconds(us) - s) >= 0.0;
  }

  // ---- The limiter object --------------------------------------------------

  /** A bucket that started full and took these turns, none later than now, is at this level. */
  ghost predicate TurnsLedHere(b: Bucket, start: int, ops: seq<Op>, l: Level, now: int) {
    InOrder(start, ops, now) && l == Run(b, FullBucket(b, start), ops)
  }

  ghost predicate InOrder(start: int, ops: seq<Op>, now: int) {
    if ops == [] then start <= now
    else ops[|ops| - 1].now <= now && InOrder(start, ops[..|ops| - 1], ops[|ops| - 1].now)
  }

  lemma {:induction false} InOrderIsMonotone(start: int, ops: seq<Op>, now: int)
    requires InOrder(start, ops, now)
    ensures Monotone(start, ops) && start <= now && forall i :: 0 <= i < |ops| ==> ops[i].now <= now
  {
    if ops != [] {
      InOrderIsMonotone(start, ops[..|ops| - 1], ops[|ops| - 1].now);
    }
  }

  /** Every bucket is at the level its turns led to. */
  ghost predicate AllLed(config: map<string, Bucket>, start: int, turns: map<string, seq<Op>>,
                         available: map<string, real>, lastRefill: map<string, int>, now: int)
  {
    && available.Keys == lastRefill.Keys == turns.Keys == config.Keys
    && forall n :: n in config ==>
         ValidBucket(config[n]) && TurnsLedHere(config[n], start, turns[n], Level(available[n], lastRefill[n]), now)
  }

  lemma AllStillLed(config: map<string, Bucket>, start: int, turns: map<string, seq<Op>>,
                    available: map<string, real>, lastRefill: map<string, int>,
                    available': map<string, real>, lastRefill': map<string, int>,
                    name: string, ops: seq<Op>, now: int)
    requires AllLed(config, start, turns, available, lastRefill, now) && name in config
    requires available'.Keys == lastRefill'.Keys == config.Keys
    requires TurnsLedHere(config[name], start, ops, Level(available'[name], lastRefill'[name]), now)
    requires forall n :: n in config && n != name ==>
               available'[n] == available[n] && lastRefill'[n] == lastRefill[n]
    ensures AllLed(config, start, turns[name := ops], available', lastRefill', now)
  {
  }

  lemma AllLedLater(config: map<string, Bucket>, start: int, turns: map<string, seq<Op>>,
                    available: map<string, real>, lastRefill: map<string, int>, now: int, later: int)
    requires AllLed(config, start, turns, available, lastRefill, now) && now <= later
    ensures AllLed(config, start, turns, available, lastRefill, later)
  {
    forall n | n in config
      ensures TurnsLedHere(config[n], start, turns[n], Level(available[n], lastRefill[n]), later)
    {
      assert TurnsLedHere(config[n], start, turns[n], Level(available[n], lastRefill[n]), now);
    }
  }

  lemma OneTurnOn(b: Bucket, start: int, ops: seq<Op>, l: Level, op: Op)
    requires TurnsLedHere(b, start, ops, l, op.now)
    ensures TurnsLedHere(b, start, ops + [op], Turn(b, l, op), op.now)
  {
    RunSnoc(b, FullBucket(b, start), ops, op);
    assert (ops + [op])[..|ops|] == ops;
  }

  datatype AcquireError = UnknownBucket | NonPositiveTokens | ExceedsCapacity

  class SimClock {
    var now: int

    constructor (start: int)
      ensures now == start
    {
      now := start;
    }

    /** Advances by the nearest whole microsecond. */
    method Sleep(seconds: real)
      requires seconds >= 0.0
      modifies this
      ensures now == old(now) + RoundHalfEven(seconds * 1000000.0)
    {
      now := now + RoundHalfEven(seconds * 1000000.0);
    }
  }

  class TokenBucketRateLimiter {
    const config: map<string, Bucket>
    const clock: SimClock
    var available: map<string, real>
    var lastRefill: map<string, int>
    ghost const start: int
    ghost var turns: map<string, seq<Op>>

    /** Every bucket's level is where its turns so far led from full. */
    ghost predicate Valid()
      reads this, clock
    {
      AllLed(config, start, turns, available, lastRefill, clock.now)
    }

    function LevelOf(name: string): Level
      requires name in available && name in lastRefill
      reads this
    {
      Level(available[name], lastRefill[name])
    }

    constructor (config: map<string, Bucket>, clock: SimClock)
      requires forall n :: n in config ==> ValidBucket(config[n])
      ensures Valid() && this.config == config && this.clock == clock
      ensures forall n :: n in config ==> LevelOf(n) == FullBucket(config[n], clock.now)
    {
      this.config, this.clock := config, clock;
      available := map n | n in config :: config[n].capacity as real;
      lastRefill := map n | n in config :: clock.now;
      start, turns := clock.now, map n | n in config :: [];
    }

    method RefillBucket(name: string)
      requires available.Keys == lastRefill.Keys == config.Keys && name in config
      modifies this`available, this`lastRefill
      ensures available.Keys == lastRefill.Keys == config.Keys
      ensures LevelOf(name) == Refill(config[name], old(LevelOf(name)), clock.now)
      ensures forall n :: n in config && n != name ==> LevelOf(n) == old(LevelOf(n))
    {
      var bucket, now := config[name], clock.now;
      var last := lastRefill[name];
      if now - last <= 0 {
        return;
      }
      var full := available[name] + bucket.refillPerSecond * Seconds(now - last);
      assert full == available[name] + Earned(bucket, now - last);
      available := available[name := if full <= bucket.capacity as real then full else bucket.capacity as real];
      lastRefill := lastRefill[name := now];
    }

    /** Refill, and take the tokens if they are there. */
    method Take(name: string, tokens: nat) returns (granted: bool)
      requires available.Keys == lastRefill.Keys == config.Keys && name in config
      modifies this`available, this`lastRefill
      ensures available.Keys == lastRefill.Keys == config.Keys
      ensures granted == Grants(config[name], old(LevelOf(name)), Attempt(tokens, clock.now))
      ensures LevelOf(name) == Turn(config[name], old(LevelOf(name)), Attempt(tokens, clock.now))
      ensures forall n :: n in config && n != name ==> LevelOf(n) == old(LevelOf(n))
    {
      RefillBucket(name);
      granted := available[name] >= tokens as real;
      if granted {
        available := available[name := available[name] - tokens as real];
      }
    }

    /** One turn of the acquire loop: everything it does between two suspensions. */
    method AcquireTurn(name: string, tokens: nat) returns (granted: bool)
      requires Valid() && name in config
      modifies this
      ensures Valid() && turns == old(turns)[name := old(turns[name]) + [Attempt(tokens, clock.now)]]
      ensures granted == Grants(config[name], old(LevelOf(name)), Attempt(tokens, clock.now))
      ensures LevelOf(name) == Turn(config[name], old(LevelOf(name)), Attempt(tokens, clock.now))
      ensures forall n :: n in config && n != name ==> LevelOf(n) == old(LevelOf(n))
    {
      ghost var op := Attempt(tokens, clock.now);
      OneTurnOn(config[name], start, turns[name], LevelOf(name), op);
      granted := Take(name, tokens);
      ghost var ops := turns[name] + [op];
      AllStillLed(config, start, turns, old(available), old(lastRefill), available, lastRefill, name, ops, op.now);
      turns := turns[name := ops];
    }

    /** A lone caller: every legal request is granted within two turns, at once if the tokens are there,
        else after a sleep within a microsecond and a half of the time the deficit takes to refill. */
    method Acquire(name: string, tokens: int) returns (r: Result<(), AcquireError>, ghost used: nat)
      requires Valid()
      modifies this, clock
      ensures Valid()
      ensures name !in config ==> r == Err(UnknownBucket)
      ensures name in config && tokens <= 0 ==> r == Err(NonPositiveTokens)
      ensures name in config && tokens > config[name].capacity ==> r == Err(ExceedsCapacity)
      ensures r.Err? ==> clock.now == old(clock.now) && available == old(available) && lastRefill == old(lastRefill)
      ensures name in config && 0 < tokens <= config[name].capacity ==>
                && r == Ok(()) && used <= 2
                && Waited(config[name], Refill(config[name], old(LevelOf(name)), old(clock.now)), tokens,
                          old(clock.now), clock.now, LevelOf(name))
    {
      used := 0;
      if name !in config {
        return Err(UnknownBucket), 0;
      }
      if tokens <= 0 {
        return Err(NonPositiveTokens), 0;
      }
      if tokens > config[name].capacity {
        return Err(ExceedsCapacity), 0;
      }
      used := TurnUntilGranted(name, tokens);
      r := Ok(());
    }

    method TurnUntilGranted(name: string, tokens: nat) returns (ghost used: nat)
      requires Valid() && name in config && 0 < tokens <= config[name].capacity
      modifies this, clock
      ensures Valid() && used <= 2
      ensures Waited(config[name], Refill(config[name], old(LevelOf(name)), old(clock.now)), tokens,
                     old(clock.now), clock.now, LevelOf(name))
    {
      ghost var from := clock.now;
      ghost var l := Refill(config[name], LevelOf(name), from);
      used := 0;
      while true
        invariant Valid() && used <= 1
        invariant used == 0 ==> clock.now == from && LevelOf(name) == old(LevelOf(name))
        invariant used == 1 ==> LevelOf(name) == l && Sleeps(config[name], l, tokens, from, clock.now)
        decreases 2 - used
      {
        used := used + 1;
        var granted := AcquireTurn(name, tokens);
        if granted {
          return;
        }
        InOrderIsMonotone(start, turns[name], clock.now);
        RunInRange(config[name], start, turns[name]);
        SleepOff(name, tokens);
      }
    }

    /** Sleep until the deficit is refilled, and a microsecond more. */
    method SleepOff(name: string, tokens: nat)
      requires Valid() && name in config && available[name] < tokens as real <= config[name].capacity as real
      requires lastRefill[name] == clock.now && InRange(config[name], LevelOf(name))
      modifies clock
      ensures Valid() && LevelOf(name) == old(LevelOf(name))
      ensures Sleeps(config[name], LevelOf(name), tokens, old(clock.now), clock.now)
    {
      var deficit := tokens as real - available[name];
      var wait := deficit / config[name].refillPerSecond;
      WaitPositive(deficit, config[name].refillPerSecond);
      CushionCoversDeficit(config[name], LevelOf(name), tokens, clock.now, wait);
      ghost var now := clock.now;
      clock.Sleep(wait + 0.000001);
      AllLedLater(config, start, turns, available, lastRefill, now, clock.now);
    }
  }

  /** So the bound holds of the object: of all turns it ever took on a bucket, those within any `d`
      microseconds were granted at most capacity + rate × d. */
  lemma LimiterBound(limiter: TokenBucketRateLimiter, name: string, i: nat, j: nat, d: nat)
    requires limiter.Valid() && name in limiter.config && i <= j <= |limiter.turns[name]|
    requires i < j ==> limiter.turns[name][j - 1].now - limiter.turns[name][i].now <= d
    ensures var b := limiter.config[name];
            GrantedBetween(b, limiter.start, limiter.turns[name], i, j) as real <= b.capacity as real + Earned(b, d)
  {
    var ops := limiter.turns[name];
    assert TurnsLedHere(limiter.config[name], limiter.start, ops, limiter.LevelOf(name), limiter.clock.now);
    InOrderIsMonotone(limiter.start, ops, limiter.clock.now);
    WindowBound(limiter.config[name], limiter.start, ops, i, j, d);
  }

  /** The wait from `start` to `now` was about the deficit's refill time, and enough. */
  ghost predicate Sleeps(b: Bucket, l: Level, tokens: nat, start: int, now: int)
    requires b.refillPerSecond > 0.0
  {
    && start <= now && l.available < tokens as real && Grants(b, l, Attempt(tokens, now))
    && Distance(now - start, (tokens as real - l.available) / b.refillPerSecond) <= 1.5
  }

  /** Level and clock after a granted request that found level `l` at `start`. */
  ghost predicate Waited(b: Bucket, l: Level, tokens: nat, start: int, now: int, l': Level)
    requires b.refillPerSecond > 0.0
  {
    if l.available >= tokens as real
    then now == start && l' == l.(available := l.available - tokens as real)
    else Sleeps(b, l, tokens, start, now) && l' == Turn(b, l, Attempt(tokens, now))
  }

  /** How far `us` microseconds are from `s` seconds, in microseconds. */
  function Distance(us: int, s: real): real {
    var d := us as real - s * 1000000.0;
    if d < 0.0 then -d else d
  }

  lemma WaitPositive(deficit: real, rate: real)
    requires deficit > 0.0 && rate > 0.0
    ensures deficit / rate > 0.0
  {
  }

  /** The one-microsecond cushion outweighs the clock's rounding, so the next turn grants. */
  lemma CushionCoversDeficit(b: Bucket, l: Level, tokens: nat, now: int, wait: real)
    requires ValidBucket(b) && InRange(b, l) && l.available < tokens as real <= b.capacity as real
    requires l.lastRefill == now && wait == (tokens as real - l.available) / b.refillPerSecond
    ensures Sleeps(b, l, tokens, now, now + RoundHalfEven((wait + 0.000001) * 1000000.0))
  {
    var n := RoundHalfEven((wait + 0.000001) * 1000000.0);
    WaitPositive(tokens as real - l.available, b.refillPerSecond);
    assert n as real >= wait * 1000000.0 + 0.5;
    assert Seconds(n) >= wait;
    assert b.refillPerSecond * (Seconds(n) - wait) >= 0.0;
    assert b.refillPerSecond * wait == tokens as real - l.available;
    assert Earned(b, n) >= tokens as real - l.available;
  }
}
