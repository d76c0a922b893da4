/** The streaming subscription budget: permits, live subscriptions and calls in progress. */
module IGSubscriptions {
  import opened Domain

  /** `waiting` calls hold no permit; `inflight` subscribes and `releasing` unsubscribes each hold one. */
  datatype Budget = Budget(
    free: nat,
    active: map<Instrument, nat>,
    waiting: seq<Instrument>,
    inflight: seq<Instrument>,
    releasing: seq<Instrument>)

  datatype Step =
    | BeginSubscribe(instrument: Instrument)
    | Grant(index: nat)
    | Succeed(index: nat, subscription: nat)
    | Fail(index: nat)
    | Abort(index: nat)
    | BeginUnsubscribe(instrument: Instrument)
    | EndUnsubscribe(index: nat)

  function Without<T>(s: seq<T>, i: nat): (r: seq<T>)
    requires i < |s|
    ensures |r| == |s| - 1
  {
    s[..i] + s[i + 1..]
  }

  function Fresh(max: nat): Budget {
    Budget(max, map[], [], [], [])
  }

  /** One section of code between suspensions. A cancelled subscribe (`Abort`) skips the handler that
      returns the permit, which only catches ordinary exceptions. */
  function Next(b: Budget, s: Step): Budget {
    match s
    case BeginSubscribe(inst) => if inst in b.active then b else b.(waiting := b.waiting + [inst])
    case Grant(i) =>
      if i >= |b.waiting| || b.free == 0 then b
      else b.(free := b.free - 1, waiting := Without(b.waiting, i), inflight := b.inflight + [b.waiting[i]])
    case Succeed(i, sub) =>
      if i >= |b.inflight| then b
      else b.(inflight := Without(b.inflight, i), active := b.active[b.inflight[i] := sub])
    case Fail(i) => if i >= |b.inflight| then b else b.(inflight := Without(b.inflight, i), free := b.free + 1)
    case Abort(i) => if i >= |b.inflight| then b else b.(inflight := Without(b.inflight, i))
    case BeginUnsubscribe(inst) =>
      if inst !in b.active then b else b.(active := b.active - {inst}, releasing := b.releasing + [inst])
    case EndUnsubscribe(i) =>
      if i >= |b.releasing| then b else b.(releasing := Without(b.releasing, i), free := b.free + 1)
  }

  function Run(steps: seq<Step>, max: nat): Budget {
    if steps == [] then Fresh(max) else Next(Run(steps[..|steps| - 1], max), steps[|steps| - 1])
  }

  /** Every permit that is somewhere. */
  function Held(b: Budget): nat {
    b.free + |b.active| + |b.inflight| + |b.releasing|
  }

  /** A permit is lost when a subscribe is cancelled, or lands on an instrument already live. */
  predicate Leaks(b: Budget, s: Step) {
    || (s.Abort? && s.index < |b.inflight|)
    || (s.Succeed? && s.index < |b.inflight| && b.inflight[s.index] in b.active)
  }

  function Lost(steps: seq<Step>, max: nat): nat {
    if steps == [] then 0
    else
      var init := steps[..|steps| - 1];
      Lost(init, max) + if Leaks(Run(init, max), steps[|steps| - 1]) then 1 else 0
  }

  lemma MapGrows(m: map<Instrument, nat>, k: Instrument, v: nat)
    ensures |m[k := v]| == |m| + if k in m then 0 else 1
  {
    assert m[k := v].Keys == m.Keys + {k};
    assert |m[k := v]| == |m[k := v].Keys| && |m| == |m.Keys|;
  }

  lemma MapShrinks(m: map<Instrument, nat>, k: Instrument)
    requires k in m
    ensures |m - {k}| == |m| - 1
  {
    assert (m - {k}).Keys == m.Keys - {k};
    assert |m - {k}| == |(m - {k}).Keys| && |m| == |m.Keys|;
  }

  lemma SucceedHolds(b: Budget, i: nat, subscription: nat)
    ensures Held(Next(b, Succeed(i, subscription))) == Held(b) - if Leaks(b, Succeed(i, subscription)) then 1 else 0
  {
    if i < |b.inflight| {
      MapGrows(b.active, b.inflight[i], subscription);
    }
  }

  lemma UnsubscribeHolds(b: Budget, inst: Instrument)
    ensures Held(Next(b, BeginUnsubscribe(inst))) == Held(b)
  {
    if inst in b.active {
      MapShrinks(b.active, inst);
    }
  }

  lemma NextHolds(b: Budget, s: Step)
    ensures Held(Next(b, s)) == Held(b) - if Leaks(b, s) then 1 else 0
  {
    match s {
      case Succeed(i, sub) => SucceedHolds(b, i, sub);
      case BeginUnsubscribe(inst) => UnsubscribeHolds(b, inst);
      case _ =>
    }
  }

  /** In every interleaving: free permits, live subscriptions and calls holding one are the maximum less
      exactly the permits lost. */
  lemma {:induction false} PermitsConserved(steps: seq<Step>, max: nat)
    ensures Held(Run(steps, max)) + Lost(steps, max) == max
  {
    if steps != [] {
      var init := steps[..|steps| - 1];
      PermitsConserved(init, max);
      NextHolds(Run(init, max), steps[|steps| - 1]);
    }
  }

  // ---- Without overlaps nothing is lost ------------------------------------

  /** No call is cancelled in flight, and no subscribe starts while one for the instrument is in progress. */
  ghost predicate NoOverlap(steps: seq<Step>, max: nat) {
    steps == [] ||
    var init, s := steps[..|steps| - 1], steps[|steps| - 1];
    NoOverlap(init, max) && Apart(Run(init, max), s)
  }

  predicate Apart(b: Budget, s: Step) {
    !s.Abort? && (s.BeginSubscribe? ==> s.instrument !in b.waiting && s.instrument !in b.inflight)
  }

  ghost predicate Distinct(s: seq<Instrument>) {
    forall i, j :: 0 <= i < j < |s| ==> s[i] != s[j]
  }

  /** Instruments in progress are distinct and none is live. */
  ghost predicate Disjoint(b: Budget) {
    && Distinct(b.waiting) && Distinct(b.inflight)
    && (forall x :: x in b.waiting ==> x !in b.inflight && x !in b.active)
    && (forall x :: x in b.inflight ==> x !in b.active)
  }

  lemma WithoutDistinct(s: seq<Instrument>, i: nat)
    requires Distinct(s) && i < |s|
    ensures Distinct(Without(s, i)) && s[i] !in Without(s, i)
    ensures forall x :: x in Without(s, i) ==> x in s
  {
    var r := Without(s, i);
    assert forall j :: 0 <= j < |r| ==> r[j] == s[if j < i then j else j + 1];
  }

  lemma AppendDistinct(s: seq<Instrument>, x: Instrument)
    requires Distinct(s) && x !in s
    ensures Distinct(s + [x]) && forall y :: y in s + [x] <==> y in s || y == x
  {
  }

  lemma NextDisjoint(b: Budget, s: Step)
    requires Disjoint(b) && Apart(b, s)
    ensures Disjoint(Next(b, s)) && !Leaks(b, s)
  {
    match s {
      case BeginSubscribe(inst) => if inst !in b.active { AppendDistinct(b.waiting, inst); }
      case Grant(i) =>
        if i < |b.waiting| {
          assert b.waiting[i] in b.waiting;
          WithoutDistinct(b.waiting, i);
          AppendDistinct(b.inflight, b.waiting[i]);
        }
      case Succeed(i, _) =>
        if i < |b.inflight| {
          assert b.inflight[i] in b.inflight;
          WithoutDistinct(b.inflight, i);
        }
      case Fail(i) => if i < |b.inflight| { WithoutDistinct(b.inflight, i); }
      case _ =>
    }
  }

  /** For calls that do not overlap on an instrument, through failures, repeated unsubscribes and every
      interleaving: nothing is lost, and at most the maximum is live. */
  lemma {:induction false} NoOverlapConserves(steps: seq<Step>, max: nat)
    requires NoOverlap(steps, max)
    ensures Disjoint(Run(steps, max)) && Lost(steps, max) == 0
    ensures Held(Run(steps, max)) == max && |Run(steps, max).active| <= max
  {
    if steps != [] {
      var init, s := steps[..|steps| - 1], steps[|steps| - 1];
      NoOverlapConserves(init, max);
      NextDisjoint(Run(init, max), s);
    }
    PermitsConserved(steps, max);
  }

  /** When all calls ended and everything was unsubscribed, every permit is back if and only if none was lost. */
  lemma IdleIsFull(steps: seq<Step>, max: nat)
    requires var b := Run(steps, max); b.active == map[] && b.inflight == [] && b.releasing == []
    ensures Run(steps, max).free == max <==> Lost(steps, max) == 0
  {
    PermitsConserved(steps, max);
  }

  lemma RunSnoc(steps: seq<Step>, s: Step, max: nat)
    ensures Run(steps + [s], max) == Next(Run(steps, max), s)
    ensures Lost(steps + [s], max) == Lost(steps, max) + if Leaks(Run(steps, max), s) then 1 else 0
  {
    assert (steps + [s])[..|steps|] == steps;
  }

  /** Two overlapping subscribes of one instrument: the second overwrites the first, whose permit no
      unsubscribe returns. */
  lemma OverlapLosesPermit(inst: Instrument, max: nat)
    requires max >= 2
    ensures var steps := [BeginSubscribe(inst)] + [BeginSubscribe(inst)] + [Grant(0)] + [Grant(0)] +
                         [Succeed(0, 1)] + [Succeed(0, 2)] + [BeginUnsubscribe(inst)] + [EndUnsubscribe(0)];
            && Run(steps, max) == Budget(max - 1, map[], [], [], [])
            && Lost(steps, max) == 1
  {
    var s4 := [BeginSubscribe(inst)] + [BeginSubscribe(inst)] + [Grant(0)] + [Grant(0)];
    BothGranted(inst, max);
    BothLand(s4, inst, max);
    var s6 := s4 + [Succeed(0, 1)] + [Succeed(0, 2)];
    RunSnoc(s6, BeginUnsubscribe(inst), max);
    assert Run(s6 + [BeginUnsubscribe(inst)], max) == Budget(max - 2, map[], [], [], [inst]);
    RunSnoc(s6 + [BeginUnsubscribe(inst)], EndUnsubscribe(0), max);
    PermitsConserved(s6 + [BeginUnsubscribe(inst)] + [EndUnsubscribe(0)], max);
  }

  lemma BothGranted(inst: Instrument, max: nat)
    requires max >= 2
    ensures Run([BeginSubscribe(inst)] + [BeginSubscribe(inst)] + [Grant(0)] + [Grant(0)], max) ==
            Budget(max - 2, map[], [], [inst, inst], [])
  {
    var b, g := BeginSubscribe(inst), Grant(0);
    assert [] + [b] == [b] && Run([], max) == Fresh(max);
    RunSnoc([], b, max);
    RunSnoc([b], b, max);
    assert Run([b] + [b], max) == Budget(max, map[], [inst, inst], [], []);
    RunSnoc([b] + [b], g, max);
    assert Run([b] + [b] + [g], max) == Budget(max - 1, map[], [inst], [inst], []);
    RunSnoc([b] + [b] + [g], g, max);
  }

  lemma BothLand(s4: seq<Step>, inst: Instrument, max: nat)
    requires max >= 2 && Run(s4, max) == Budget(max - 2, map[], [], [inst, inst], [])
    ensures Run(s4 + [Succeed(0, 1)] + [Succeed(0, 2)], max) == Budget(max - 2, map[inst := 2], [], [], [])
  {
    RunSnoc(s4, Succeed(0, 1), max);
    assert Run(s4 + [Succeed(0, 1)], max) == Budget(max - 2, map[inst := 1], [], [inst], []);
    RunSnoc(s4 + [Succeed(0, 1)], Succeed(0, 2), max);
  }

  // ---- The adapter's methods, section by section ----------------------------

  class IGMarketData {
    var free: nat
    var active: map<Instrument, nat>
    var waiting: seq<Instrument>
    var inflight: seq<Instrument>
    var releasing: seq<Instrument>
    ghost const max: nat
    ghost var history: seq<Step>

    ghost function View(): Budget
      reads this
    {
      Budget(free, active, waiting, inflight, releasing)
    }

    /** The object is where the steps it took lead from a full budget. */
    ghost predicate Valid()
      reads this
    {
      View() == Run(history, max)
    }

    constructor (max: nat)
      ensures Valid() && history == [] && this.max == max
    {
      free, active, waiting, inflight, releasing := max, map[], [], [], [];
      this.max, history := max, [];
    }

    /** Closes a method: the step it took joins the history. */
    ghost method Took(s: Step, before: seq<Step>)
      requires history == before && View() == Next(Run(before, max), s)
      modifies this`history
      ensures Valid() && history == before + [s]
    {
      RunSnoc(before, s, max);
      history := before + [s];
    }

    /** `subscribe_bars` up to the semaphore; refused when the instrument is live. */
    method Subscribe(inst: Instrument) returns (ok: bool)
      requires Valid()
      modifies this
      ensures Valid() && history == old(history) + [BeginSubscribe(inst)]
      ensures View() == Next(old(View()), BeginSubscribe(inst)) && ok == (inst !in old(active))
    {
      ok := inst !in active;
      if ok {
        waiting := waiting + [inst];
      }
      Took(BeginSubscribe(inst), history);
    }

    /** A waiting call gets a permit, if one is free. */
    method Acquire(i: nat)
      requires Valid() && i < |waiting|
      modifies this
      ensures Valid() && history == old(history) + [Grant(i)]
      ensures View() == Next(old(View()), Grant(i))
    {
      if free > 0 {
        free := free - 1;
        inflight := inflight + [waiting[i]];
        waiting := Without(waiting, i);
      }
      Took(Grant(i), history);
    }

    /** The rest of `subscribe_bars`: resolve, connect and subscribe worked, or one of them raised. */
    method Resume(i: nat, subscription: Option<nat>)
      requires Valid() && i < |inflight|
      modifies this
      ensures var s := if subscription.Some? then Succeed(i, subscription.value) else Fail(i);
              Valid() && history == old(history) + [s] && View() == Next(old(View()), s)
    {
      var inst := inflight[i];
      inflight := Without(inflight, i);
      if subscription.None? {
        free := free + 1;
        Took(Fail(i), history);
        return;
      }
      active := active[inst := subscription.value];
      Took(Succeed(i, subscription.value), history);
    }

    /** A subscribe cancelled while it waits on the wire: nothing runs, and its permit stays out. */
    method Cancelled(i: nat)
      requires Valid() && i < |inflight|
      modifies this
      ensures Valid() && history == old(history) + [Abort(i)]
      ensures View() == Next(old(View()), Abort(i))
    {
      inflight := Without(inflight, i);
      Took(Abort(i), history);
    }

    /** `unsubscribe` up to the wire call; nothing to do for an instrument that is not live. */
    method Unsubscribe(inst: Instrument)
      requires Valid()
      modifies this
      ensures Valid() && history == old(history) + [BeginUnsubscribe(inst)]
      ensures View() == Next(old(View()), BeginUnsubscribe(inst))
    {
      if inst in active {
        active := active - {inst};
        releasing := releasing + [inst];
      }
      Took(BeginUnsubscribe(inst), history);
    }

    /** The permit comes back whether or not the wire call worked. */
    method Release(i: nat)
      requires Valid() && i < |releasing|
      modifies this
      ensures Valid() && history == old(history) + [EndUnsubscribe(i)]
      ensures View() == Next(old(View()), EndUnsubscribe(i))
    {
      releasing := Without(releasing, i);
      free := free + 1;
      Took(EndUnsubscribe(i), history);
    }
  }

  /** So conservation holds of the object, whatever was called on it: its permits, live subscriptions and
      calls holding one are the maximum less the permits its history lost. */
  lemma ObjectConserves(data: IGMarketData)
    requires data.Valid()
    ensures data.free + |data.active| + |data.inflight| + |data.releasing| + Lost(data.history, data.max) == data.max
  {
    PermitsConserved(data.history, data.max);
  }
}
