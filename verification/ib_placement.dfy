/** Submitting one order to the broker and following it. */
module IBPlacement {
  import opened Domain
  import opened EventQueue
  import opened Answers
  import opened OrderFsm
  import opened OrderTracking
  import opened PriceGrid
  import opened IBBrokerModel
  import opened IBBrokerRuns
  import opened IBBrokerTheorems
  import opened IBBrokerAdapter
  import opened Draining
  import opened OrderEvents

  /** What the world does around one submitted order. */
  datatype OrderScript = OrderScript(
    during: seq<Step>, grid: Option<seq<Band>>, ibId: int, firstWait: seq<Turn>, secondWait: seq<Turn>)

  predicate EnvScript(sc: OrderScript) {
    AllEnv(sc.during) && EnvTurns(sc.firstWait) && EnvTurns(sc.secondWait)
  }

  /** The environment takes all of `steps`. */
  method Await(broker: IBBroker, steps: seq<Step>)
    requires broker.Valid() && AllEnv(steps)
    modifies broker
    ensures broker.Valid() && broker.history == old(broker.history) + steps && broker.taken == old(broker.taken)
  {
    for i := 0 to |steps|
      invariant broker.Valid() && broker.history == old(broker.history) + steps[..i]
      invariant broker.taken == old(broker.taken)
    {
      assert steps[..i + 1] == steps[..i] + [steps[i]];
      assert EnvStep(steps[i]);
      broker.Perform(steps[i]);
    }
  }

  /** `broker.submit`, with the environment acting while it is suspended. */
  method Submit(broker: IBBroker, order: Order, sc: OrderScript) returns (r: Result<OrderId, SubmitError>)
    requires broker.Valid() && Idle(broker.history, order.id, broker.policy) && EnvScript(sc)
    modifies broker
    ensures broker.Valid() && broker.taken == old(broker.taken)
    ensures broker.history ==
            old(broker.history) + [BeginSubmit(order)] + sc.during + [ResumeSubmit(0, sc.grid, sc.ibId)]
    ensures r.Err? ==> broker.wire == old(broker.wire)
  {
    FreshIsSilent(broker.history, order.id, broker.policy);
    SubmissionRuns(broker.history, order, sc.during, sc.grid, sc.ibId, broker.policy);
    BeginRuns(broker.history, order, broker.policy);
    EnvRunKeeps(broker.history + [BeginSubmit(order)], sc.during, broker.policy);
    var begun := broker.BeginSubmit(order);
    Await(broker, sc.during);
    assert broker.View().wire == old(broker.View().wire);
    r := broker.ResumeSubmit(0, sc.grid, sc.ibId);
  }

  /** The run after one order was submitted and followed. */
  ghost predicate Followed(steps: seq<Step>, o: Order, steps': seq<Step>, own: seq<OrderEvent>,
                           policy: RoundingPolicy) {
    && Idle(steps', o.id + 1, policy)
    && SubmittedOnly(Exec(steps, policy), o, Exec(steps', policy), policy)
    && own <= Own(Exec(steps', policy).puts, o.id)
    && forall e :: e in own ==> FillOfOrder(e, o) && (IsFillKind(e.kind) <==> e.fill.Some?)
  }

  lemma FollowedAfter(steps: seq<Step>, o: Order, steps1: seq<Step>, env: seq<Step>, env2: seq<Step>,
                      own: seq<OrderEvent>, policy: RoundingPolicy)
    requires Idle(steps1, o.id + 1, policy) && AllEnv(env) && AllEnv(env2)
    requires SubmittedOnly(Exec(steps, policy), o, Exec(steps1, policy), policy)
    requires own <= Own(Exec(steps1 + env, policy).puts, o.id)
    ensures Followed(steps, o, steps1 + env + env2, own, policy)
  {
    IdleEnv(steps1, env, o.id + 1, policy);
    IdleEnv(steps1 + env, env2, o.id + 1, policy);
    var b, b1 := Exec(steps, policy), Exec(steps1, policy);
    var b2, b3 := Exec(steps1 + env, policy), Exec(steps1 + env + env2, policy);
    SubmittedOnlyEnv(b, o, b1, b2, policy);
    SubmittedOnlyEnv(b, o, b2, b3, policy);
    OwnEventsSound(steps1 + env, policy, o.id);
    OwnGrows(b2.puts, b3.puts, o.id);
    assert forall e :: e in own ==> e in Own(b2.puts, o.id);
  }

  lemma SubmittedOnlyEnv(b: Broker, o: Order, b1: Broker, b2: Broker, policy: RoundingPolicy)
    requires SubmittedOnly(b, o, b1, policy) && SameOrders(b1, b2)
    ensures SubmittedOnly(b, o, b2, policy)
  {
  }

  /** One wait; if nothing of the order was read before, what it reads is the start of its whole trace. */
  method Follow(broker: IBBroker, id: OrderId, turns: seq<Turn>)
    returns (answer: Answer, ghost own: seq<OrderEvent>, ghost env: seq<Step>)
    requires broker.Valid() && EnvTurns(turns)
    modifies broker
    ensures broker.Valid() && broker.history == old(broker.history) + env && AllEnv(env)
    ensures Following(answer, own, IsTerminal(answer.state)) && Reports(answer, own)
    ensures old(Own(broker.taken, id)) == [] ==> own <= Own(broker.View().puts, id)
  {
    var used;
    ghost var read;
    answer, used, read := DrainOrder(broker, id, turns);
    EnvStepsAreEnv(turns[..used]);
    own, env := Own(read, id), EnvSteps(turns[..used]);
    StartOfTrace(old(broker.taken), read, broker.queue, id);
  }

  /** What is read first is the start of the whole trace. */
  lemma StartOfTrace(taken: seq<QueueItem>, read: seq<QueueItem>, rest: seq<QueueItem>, id: OrderId)
    ensures Own(taken, id) == [] ==> Own(read, id) <= Own(taken + read + rest, id)
  {
    OwnAppend(taken, read, id);
    OwnAppend(taken + read, rest, id);
    if Own(taken, id) == [] {
      assert [] + Own(read, id) == Own(read, id);
    }
  }

  /** The wait gave a fill to book, a cancellation or a rejection. */
  predicate Decided(a: Answer) {
    (a.state == Filled && a.fill.Some?) || a.state == Canceled || a.state == Rejected
  }

  /** Submit one order and follow it: the first wait decides; anything undecided is cancelled by the engine,
      and that second wait is drained and ignored. When `submit` raises, nothing was placed. */
  method PlaceAndDrain(broker: IBBroker, order: Order, sc: OrderScript)
    returns (r: Result<Answer, SubmitError>, ghost own: seq<OrderEvent>)
    requires broker.Valid() && Idle(broker.history, order.id, broker.policy) && EnvScript(sc)
    modifies broker
    ensures broker.Valid()
    ensures r.Ok? ==> Following(r.value, own, IsTerminal(r.value.state)) && Reports(r.value, own)
    ensures r.Ok? ==> Followed(old(broker.history), order, broker.history, own, broker.policy)
    ensures r.Err? ==> broker.wire == old(broker.wire) && old(broker.View().puts) <= broker.View().puts
  {
    SubmissionRuns(broker.history, order, sc.during, sc.grid, sc.ibId, broker.policy);
    NothingTaken(broker, order.id);
    var submitted := Submit(broker, order, sc);
    if submitted.Err? {
      return Err(submitted.error), [];
    }
    ghost var steps1 := broker.history;
    ghost var env, env2 := [], [];
    var answer;
    answer, own, env := Follow(broker, order.id, sc.firstWait);
    if !Decided(answer) {
      var _, _, more := Follow(broker, order.id, sc.secondWait);
      env2 := more;
    } else {
      assert broker.history == broker.history + env2;
    }
    FollowedAfter(old(broker.history), order, steps1, env, env2, own, broker.policy);
    r := Ok(answer);
  }

  lemma NothingTaken(broker: IBBroker, id: OrderId)
    requires broker.Valid() && Idle(broker.history, id, broker.policy)
    ensures Own(broker.taken, id) == []
  {
    FreshIsSilent(broker.history, id, broker.policy);
    OwnGrows(broker.taken, broker.View().puts, id);
  }
}
