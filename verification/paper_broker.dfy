/** The in-process paper broker: the methods that update its book, its tasks and its event queue. */
module PaperBrokerAdapter {
  import opened Domain
  import opened EventQueue
  import opened PaperBrokerModel

  datatype NotConnected = NotConnected

  class PaperBroker {
    const commissionPerShare: real
    var connected: bool
    var open: map<OrderId, Order>
    var venueIds: map<OrderId, nat>
    var nextSeq: nat
    var tasks: seq<Lifecycle>
    var queue: seq<QueueItem>
    ghost var taken: seq<QueueItem>
    ghost var history: seq<PaperStep>

    /** The abstract state; what consumers already took off the queue stays on record. */
    ghost function View(): Paper
      reads this
    {
      Paper(connected, open, venueIds, nextSeq, tasks, taken + queue)
    }

    /** The object is where its history of steps leads. */
    ghost predicate Valid()
      reads this
    {
      View() == ExecPaper(history, commissionPerShare)
    }

    /** This step happened, and nothing was read. */
    twostate predicate Did(s: PaperStep)
      reads this
    {
      && Valid() && history == old(history) + [s] && taken == old(taken)
      && View() == NextPaper(old(View()), s, commissionPerShare)
    }

    /** Record a step whose effect on the fields is complete. */
    ghost method Remember(was: Paper, s: PaperStep)
      requires was == ExecPaper(history, commissionPerShare) && View() == NextPaper(was, s, commissionPerShare)
      modifies this`history
      ensures Valid() && history == old(history) + [s]
    {
      history := history + [s];
      assert history[..|history| - 1] == old(history);
    }

    constructor (commissionPerShare: real)
      ensures Valid() && history == [] && this.commissionPerShare == commissionPerShare && taken == []
      ensures !connected && open == map[] && queue == []
    {
      this.commissionPerShare := commissionPerShare;
      connected, open, venueIds, nextSeq := false, map[], map[], 1;
      tasks, queue, taken, history := [], [], [], [];
    }

    method Put(q: QueueItem)
      modifies this`queue
      ensures queue == old(queue) + [q] && taken + queue == old(taken + queue) + [q]
    {
      queue := queue + [q];
    }

    method Connect()
      requires Valid()
      modifies this
      ensures Did(PaperStep.Connect)
    {
      ghost var was := View();
      connected := true;
      Put(Notice);
      Remember(was, PaperStep.Connect);
    }

    /** Cancels every lifecycle task; open orders stay in the book. */
    method Disconnect()
      requires Valid()
      modifies this
      ensures Did(PaperStep.Disconnect)
    {
      ghost var was := View();
      connected := false;
      tasks := StopAll(tasks);
      Put(Notice);
      Remember(was, PaperStep.Disconnect);
    }

    /** Re-submitting an open id changes nothing. */
    method Submit(order: Order) returns (r: Result<OrderId, NotConnected>)
      requires Valid()
      modifies this
      ensures Did(PaperStep.Submit(order))
      ensures r == if old(connected) then Ok(order.id) else Err(NotConnected)
    {
      ghost var was := View();
      if !connected {
        Remember(was, PaperStep.Submit(order));
        return Err(NotConnected);
      }
      if order.id in open {
        Remember(was, PaperStep.Submit(order));
        return Ok(order.id);
      }
      open := open[order.id := order];
      var seqNo := nextSeq;
      nextSeq := nextSeq + 1;
      venueIds := venueIds[order.id := seqNo];
      tasks := tasks + [Lifecycle(order, seqNo, AtAck)];
      Remember(was, PaperStep.Submit(order));
      r := Ok(order.id);
    }

    /** Cancelling an order that already ended changes nothing. */
    method Cancel(id: OrderId)
      requires Valid()
      modifies this
      ensures Did(PaperStep.Cancel(id))
    {
      ghost var was := View();
      if id in open {
        open := open - {id};
        Put(OrderItem(OrderEvent(id, EvCanceled, EngineCancel, None)));
      }
      Remember(was, PaperStep.Cancel(id));
    }

    /** Resume a lifecycle task until its next sleep. */
    method Advance(i: nat, price: real, time: int)
      requires Valid()
      modifies this
      ensures Did(PaperStep.Advance(i, price, time))
    {
      ghost var was := View();
      Resume(i, price, time);
      Remember(was, PaperStep.Advance(i, price, time));
    }

    method Resume(i: nat, price: real, time: int)
      modifies this
      ensures View() == OnAdvance(old(View()), i, price, time, commissionPerShare)
      ensures taken == old(taken) && history == old(history)
    {
      if i >= |tasks| || tasks[i].phase == Over || tasks[i].phase == Crashed {
        return;
      }
      var l := tasks[i];
      var id := l.order.id;
      if id !in open {
        tasks := tasks[i := l.(phase := Over)];
        return;
      }
      if l.phase == AtAck {
        tasks := tasks[i := l.(phase := AtAccept)];
        Put(OrderItem(OrderEvent(id, EvSubmitted, NoReason, None)));
      } else if l.phase == AtAccept {
        tasks := tasks[i := l.(phase := if l.order.orderType == Mkt then AtFill else Over)];
        Put(OrderItem(OrderEvent(id, EvAccepted, NoReason, None)));
      } else {
        open := open - {id};
        var fill := PaperFill(l, price, commissionPerShare, time);
        if !ValidFill(fill) {
          tasks := tasks[i := l.(phase := Crashed)];
          return;
        }
        tasks := tasks[i := l.(phase := Over)];
        Put(OrderItem(OrderEvent(id, EvFilled, NoReason, Some(fill))));
      }
    }

    /** `anext(events)`: the oldest unread item. */
    method Get() returns (q: QueueItem)
      requires Valid() && queue != []
      modifies this`queue, this`taken
      ensures q == old(queue)[0] && queue == old(queue)[1..] && taken == old(taken) + [q]
      ensures Valid() && View() == old(View())
    {
      q := queue[0];
      queue := queue[1..];
      taken := taken + [q];
    }
  }
}
