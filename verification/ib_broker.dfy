/** The IB broker adapter: the methods that update its maps, its ready queue and its event queue. */
module IBBrokerAdapter {
  import opened Domain
  import opened EventQueue
  import opened OrderTracking
  import opened PriceGrid
  import opened IBBrokerModel

  class IBBroker {
    const policy: RoundingPolicy
    var inflight: seq<Order>
    var trades: map<OrderId, Trade>
    var tracking: map<OrderId, Tracking>
    var errors: map<int, LogEntry>
    var ready: seq<Task>
    var queue: seq<QueueItem>
    var wire: seq<Placement>
    ghost var taken: seq<QueueItem>
    ghost var history: seq<Step>

    /** The abstract state; what consumers already took off the queue stays on record. */
    ghost function View(): Broker
      reads this
    {
      Broker(inflight, trades, tracking, errors, ready, taken + queue, wire)
    }

    /** The object is where its history of steps leads. */
    ghost predicate Valid()
      reads this
    {
      View() == Exec(history, policy)
    }

    /** This step happened, and nothing was read. */
    twostate predicate Did(s: Step)
      reads this
    {
      Valid() && history == old(history) + [s] && taken == old(taken)
    }

    /** Record a step whose effect on the fields is complete. */
    ghost method Remember(was: Broker, s: Step)
      requires was == Exec(history, policy) && View() == Next(was, s, policy)
      modifies this`history
      ensures Valid() && history == old(history) + [s]
    {
      history := history + [s];
      assert history[..|history| - 1] == old(history);
    }

    constructor (policy: RoundingPolicy)
      ensures Valid() && history == [] && this.policy == policy && taken == []
    {
      this.policy := policy;
      inflight, trades, tracking, errors := [], map[], map[], map[];
      ready, queue, wire, taken, history := [], [], [], [], [];
    }

    /** `submit` up to its first suspension: the duplicate check. */
    method BeginSubmit(order: Order) returns (r: Result<OrderId, SubmitError>)
      requires Valid()
      modifies this
      ensures if r.Ok? then Did(Step.BeginSubmit(order)) && inflight == old(inflight) + [order]
              else Valid() && history == old(history) && View() == old(View())
      ensures r == if order.id in old(trades) then Err(DuplicateId) else Ok(order.id)
    {
      if order.id in trades {
        return Err(DuplicateId);
      }
      ghost var was := View();
      inflight := inflight + [order];
      Remember(was, Step.BeginSubmit(order));
      r := Ok(order.id);
    }

    method SnapOrderPrices(order: Order, grid: Option<seq<Band>>) returns (r: Result<Order, SubmitError>)
      ensures r == SnapOrder(order, grid, policy)
    {
      if !ValidOrder(order) {
        return Err(BadOrder);
      }
      if order.limitPrice == None && order.stopPrice == None {
        return Ok(order);
      }
      if grid == None {
        return Err(NoGrid);
      }
      var t := grid.value;
      if t == [] || !UsableTable(t) {
        return Err(BadTable);
      }
      var limit, stop := order.limitPrice, order.stopPrice;
      if order.limitPrice.Some? {
        var s := SnapPrice(order.limitPrice.value, t, order.side, policy);
        limit := Some(s.value);
      }
      if order.stopPrice.Some? {
        var s := SnapPrice(order.stopPrice.value, t, order.side, policy);
        stop := Some(s.value);
      }
      if limit == order.limitPrice && stop == order.stopPrice {
        return Ok(order);
      }
      var moved := order.(limitPrice := limit, stopPrice := stop);
      if !ValidOrder(moved) {
        return Err(BadOrder);
      }
      r := Ok(moved);
    }

    /** The rest of `submit`: snap, place, register, announce; or reject without placing. */
    method ResumeSubmit(i: nat, grid: Option<seq<Band>>, ibId: int) returns (r: Result<OrderId, SubmitError>)
      requires Valid() && i < |inflight|
      modifies this
      ensures Did(Step.ResumeSubmit(i, grid, ibId))
      ensures r.Ok? ==> r.value == old(inflight)[i].id
      ensures r.Err? ==> wire == old(wire)
    {
      ghost var was := View();
      var order := inflight[i];
      inflight := inflight[..i] + inflight[i + 1..];
      var snapped := SnapOrderPrices(order, grid);
      if snapped == Err(NoGrid) {
        Put(OrderEvent(order.id, EvRejected, PriceRuleUnavailable, None));
        Remember(was, Step.ResumeSubmit(i, grid, ibId));
        return Ok(order.id);
      }
      if snapped.Err? {
        Remember(was, Step.ResumeSubmit(i, grid, ibId));
        return Err(snapped.error);
      }
      order := snapped.value;
      if !Supported(order.orderType) {
        Remember(was, Step.ResumeSubmit(i, grid, ibId));
        return Err(Unsupported);
      }
      PlaceOrder(order, grid, ibId);
      Remember(was, Step.ResumeSubmit(i, grid, ibId));
      r := Ok(order.id);
    }

    /** Place, register, announce. */
    method PlaceOrder(order: Order, grid: Option<seq<Band>>, ibId: int)
      modifies this
      ensures View() == Place(old(View()), order, grid, ibId)
      ensures taken == old(taken) && history == old(history)
    {
      wire := wire + [Placement(order, grid)];
      trades := trades[order.id := Trade(ibId, [], "")];
      tracking := tracking[order.id := NewTracking(order)];
      Put(OrderEvent(order.id, EvSubmitted, NoReason, None));
    }

    /** A put on the unbounded queue never suspends. */
    method Put(e: OrderEvent)
      modifies this`queue
      ensures queue == old(queue) + [OrderItem(e)]
      ensures taken + queue == old(taken + queue) + [OrderItem(e)]
    {
      queue := queue + [OrderItem(e)];
    }

    method OnOrderStatus(id: OrderId, status: IBStatus, log: seq<LogEntry>, whyHeld: string)
      requires Valid()
      modifies this
      ensures Did(Push(id, StatusPush(status, log, whyHeld)))
    {
      ghost var was := View();
      HandleStatus(id, status, log, whyHeld);
      Remember(was, Push(id, StatusPush(status, log, whyHeld)));
    }

    method HandleStatus(id: OrderId, status: IBStatus, log: seq<LogEntry>, whyHeld: string)
      modifies this
      ensures View() == Next(old(View()), Push(id, StatusPush(status, log, whyHeld)), policy)
      ensures taken == old(taken) && history == old(history)
    {
      if id !in trades || id !in tracking {
        return;
      }
      var trade := trades[id].(log := log, whyHeld := whyHeld);
      trades := trades[id := trade];
      var t := tracking[id];
      if t.terminal {
        assert ready == ready + [] && tracking == tracking[id := t];
        return;
      }
      if IsAccepting(status) && !t.accepted {
        tracking := tracking[id := t.(accepted := true)];
        ready := ready + [PutTask(OrderEvent(id, EvAccepted, NoReason, None))];
      } else if IsCancelling(status) {
        tracking := tracking[id := t.(terminal := true)];
        var entry := if !t.accepted then LastErrorEntry(log) else None;
        var kind, reason := EvCanceled, EngineCancel;
        if entry.Some? {
          kind, reason := EvRejected, IbError(entry.value.errorCode, entry.value.message);
        }
        errors := errors - {trade.ibId};
        ready := ready + [PutTask(OrderEvent(id, kind, reason, None))];
      } else if status == StInactive {
        tracking := tracking[id := t.(terminal := true)];
        ready := ready + [RejectTask(id, REJECT_SPINS)];
      } else {
        assert ready == ready + [] && tracking == tracking[id := t];
      }
    }

    method OnOrderFill(id: OrderId, execution: Option<Execution>, commission: Option<real>)
      requires Valid()
      modifies this
      ensures Did(Push(id, FillPush(execution, commission)))
    {
      ghost var was := View();
      HandleFill(id, execution, commission);
      Remember(was, Push(id, FillPush(execution, commission)));
    }

    method HandleFill(id: OrderId, execution: Option<Execution>, commission: Option<real>)
      modifies this
      ensures View() == Next(old(View()), Push(id, FillPush(execution, commission)), policy)
      ensures taken == old(taken) && history == old(history)
    {
      if id !in trades || id !in tracking {
        return;
      }
      assert trades == trades[id := trades[id]] && tracking == tracking[id := tracking[id]] && ready == ready + [];
      var t := tracking[id];
      if t.terminal {
        return;
      }
      var execId := if execution.Some? then execution.value.execId else "";
      if execId == "" || execId in t.seen {
        return;
      }
      ghost var cb := FillPush(execution, commission);
      ghost var was := ready;
      t := t.(seen := t.seen + {execId});
      if !t.accepted {
        t := t.(accepted := true);
        ready := ready + [PutTask(OrderEvent(id, EvAccepted, NoReason, None))];
      }
      var fill := FillOf(t.order, execution.value, commission);
      if !ValidFill(fill) {
        tracking := tracking[id := t];
        return;
      }
      t := t.(cumulative := t.cumulative + fill.quantity);
      var done := t.cumulative >= t.order.quantity;
      if done {
        t := t.(terminal := true);
        errors := errors - {trades[id].ibId};
      }
      tracking := tracking[id := t];
      ready := ready + [PutTask(OrderEvent(id, if done then EvFilled else EvPartialFill, NoReason, Some(fill)))];
      assert ready == was + Tasks(old(tracking)[id], id, cb);
    }

    method OnIbError(reqId: int, code: int, message: string)
      requires Valid()
      modifies this
      ensures Did(ErrorPush(reqId, code, message))
    {
      ghost var was := View();
      if reqId > 0 {
        errors := errors[reqId := LogEntry(code, message)];
      }
      Remember(was, ErrorPush(reqId, code, message));
    }

    /** One turn of the event loop. */
    method RunReady()
      requires Valid()
      modifies this
      ensures Did(Step.RunReady)
    {
      ghost var was := View();
      RunTask();
      Remember(was, Step.RunReady);
    }

    method RunTask()
      modifies this
      ensures View() == Next(old(View()), Step.RunReady, policy)
      ensures taken == old(taken) && history == old(history)
    {
      if ready == [] {
        return;
      }
      var task := ready[0];
      ready := ready[1..];
      match task {
        case PutTask(e) => Put(e);
        case RejectTask(id, n) =>
          if n > 0 {
            ready := ready + [RejectTask(id, n - 1)];
          } else {
            var reason := Unrecoverable;
            if id in trades {
              var tr := trades[id];
              if tr.log != [] && tr.log[|tr.log| - 1].message != "" {
                reason := VenueText(tr.log[|tr.log| - 1].message);
              } else if tr.whyHeld != "" {
                reason := VenueText(tr.whyHeld);
              } else if tr.ibId in errors {
                reason := IbError(errors[tr.ibId].errorCode, errors[tr.ibId].message);
              }
              errors := errors - {tr.ibId};
            }
            Put(OrderEvent(id, EvRejected, reason, None));
          }
      }
    }

    /** Whatever the wire, the venue or the scheduler does next, short of submitting. */
    method Perform(s: Step)
      requires Valid() && !s.BeginSubmit? && !s.ResumeSubmit?
      modifies this
      ensures Did(s)
    {
      match s {
        case Push(id, StatusPush(status, log, whyHeld)) => OnOrderStatus(id, status, log, whyHeld);
        case Push(id, FillPush(execution, commission)) => OnOrderFill(id, execution, commission);
        case ErrorPush(reqId, code, message) => OnIbError(reqId, code, message);
        case RunReady => RunReady();
        case PutNotice =>
          ghost var was := View();
          queue := queue + [Notice];
          assert View().puts == was.puts + [Notice];
          Remember(was, PutNotice);
      }
    }

    /** `queue.get()`: the oldest unread item. */
    method Get() returns (q: QueueItem)
      requires Valid() && queue != []
      modifies this`queue, this`taken
      ensures q == old(queue)[0] && queue == old(queue)[1..] && taken == old(taken) + [q]
      ensures Valid() && View() == old(View())
    {
      q := queue[0];
      queue := queue[1..];
      taken := taken + [q];
    }
  }
}
