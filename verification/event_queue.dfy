/** The brokers' event queue, and one order's part of it. */
module EventQueue {
  import opened Domain

  /** An entry of the unbounded event queue; notices are connection and account events. */
  datatype QueueItem = OrderItem(event: OrderEvent) | Notice

  /** The events of `id` among queue items. */
  function Own(items: seq<QueueItem>, id: OrderId): seq<OrderEvent> {
    if items == [] then []
    else
      var q := items[|items| - 1];
      Own(items[..|items| - 1], id) + if q.OrderItem? && q.event.id == id then [q.event] else []
  }

  function EventKinds(es: seq<OrderEvent>): (ks: seq<EventKind>)
    ensures |ks| == |es| && forall i :: 0 <= i < |es| ==> ks[i] == es[i].kind
  {
    seq(|es|, i requires 0 <= i < |es| => es[i].kind)
  }

  function FillsIn(es: seq<OrderEvent>): seq<Fill> {
    if es == [] then []
    else
      var e := es[|es| - 1];
      FillsIn(es[..|es| - 1]) + if IsFillKind(e.kind) && e.fill.Some? then [e.fill.value] else []
  }

  lemma OwnConcat(a: seq<QueueItem>, q: QueueItem, id: OrderId)
    ensures Own([q], id) == if q.OrderItem? && q.event.id == id then [q.event] else []
    ensures Own(a + [q], id) == Own(a, id) + Own([q], id)
  {
    assert (a + [q])[..|a|] == a && [q][..0] == [];
  }

  lemma {:induction false} OwnAppend(a: seq<QueueItem>, b: seq<QueueItem>, id: OrderId)
    ensures Own(a + b, id) == Own(a, id) + Own(b, id)
  {
    if b == [] {
      assert a + b == a;
    } else {
      OwnAppend(a, b[..|b| - 1], id);
      assert (a + b)[..|a + b| - 1] == a + b[..|b| - 1];
    }
  }

  lemma OwnGrows(a: seq<QueueItem>, b: seq<QueueItem>, id: OrderId)
    requires a <= b
    ensures Own(a, id) <= Own(b, id)
  {
    OwnAppend(a, b[|a|..], id);
    assert a + b[|a|..] == b;
  }

  lemma {:induction false} FillsInPrefix(all: seq<OrderEvent>, n: nat)
    requires n <= |all|
    ensures FillsIn(all[..n]) <= FillsIn(all)
  {
    if n < |all| {
      FillsInPrefix(all[..|all| - 1], n);
      assert all[..|all| - 1][..n] == all[..n];
    } else {
      assert all[..n] == all;
    }
  }
}
