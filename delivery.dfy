/** The listeners under the transport's delivery: messages may arrive out
    of order, twice, or again after a refusal, and each delivery is one
    handler call. A sequence of deliveries is a fold of the handler
    functions over the messages. */
module Delivery {
  import opened Common
  import opened Events
  import opened Store
  import opened Listeners
  import Orders
  import Tickets

  /** The state after delivering a sequence of messages one at a time, and
      how each delivery ended. */
  datatype Run = Run(post: State, results: seq<ListenerResult>)

  // ----- ticket:updated deliveries -----

  /** Delivers ticket:updated messages in the given order. Versions only
      grow, and no ticket appears or disappears. */
  function DeliverTicketUpdates(s: State, es: seq<TicketData>): (r: Run)
    decreases |es|
    ensures |r.results| == |es|
    ensures r.post.orders == s.orders && r.post.outbox == s.outbox
    ensures r.post.tickets.Keys == s.tickets.Keys
    ensures forall id :: id in s.tickets ==> r.post.tickets[id].version >= s.tickets[id].version
  {
    if es == [] then Run(s, [])
    else
      var step := TicketUpdated(s, es[0]);
      var rest := DeliverTicketUpdates(step.post, es[1..]);
      Run(rest.post, [step.result] + rest.results)
  }

  /** How many of the deliveries to ticket `id` were acknowledged. */
  function AppliedTo(id: Id, es: seq<TicketData>, results: seq<ListenerResult>): nat
    requires |results| == |es|
  {
    if es == [] then 0
    else (if es[0].id == id && results[0].Ack? then 1 else 0) + AppliedTo(id, es[1..], results[1..])
  }

  /** One ticket:updated delivery, seen from ticket `id`: its version rises
      by one exactly when the delivery was for it and acknowledged, and then
      the delivery carried the version just above the stored one. */
  lemma UpdateStep(s: State, e: TicketData, id: Id)
    requires id in s.tickets
    ensures var step := TicketUpdated(s, e);
      && id in step.post.tickets
      && step.post.tickets[id].version == s.tickets[id].version + (if e.id == id && step.result.Ack? then 1 else 0)
      && (e.id == id && step.result.Ack? ==> e.version == s.tickets[id].version + 1)
  {
  }

  /** Counting over a prefix that starts with the first delivery. */
  lemma AppliedToPrefix(id: Id, es: seq<TicketData>, results: seq<ListenerResult>, i: nat)
    requires |results| == |es| && 0 < i <= |es|
    ensures AppliedTo(id, es[..i], results[..i]) ==
      (if es[0].id == id && results[0].Ack? then 1 else 0) + AppliedTo(id, es[1..][..i - 1], results[1..][..i - 1])
  {
    assert es[..i][1..] == es[1..][..i - 1];
    assert results[..i][1..] == results[1..][..i - 1];
  }

  /** The version gate in action: the updates to a ticket that are applied
      carry consecutive versions, starting just above the stored one, and
      the final stored version counts them. Whatever the delivery order, no
      update is applied twice and none is skipped over. */
  lemma {:induction false} AppliedUpdatesAreConsecutive(s: State, es: seq<TicketData>, id: Id)
    requires id in s.tickets
    ensures var r := DeliverTicketUpdates(s, es);
      forall i :: 0 <= i < |es| && es[i].id == id && r.results[i].Ack? ==>
        es[i].version == s.tickets[id].version + AppliedTo(id, es[..i], r.results[..i]) + 1
    ensures var r := DeliverTicketUpdates(s, es);
      r.post.tickets[id].version == s.tickets[id].version + AppliedTo(id, es, r.results)
    decreases |es|
  {
    if es != [] {
      var r := DeliverTicketUpdates(s, es);
      var step := TicketUpdated(s, es[0]);
      var rest := DeliverTicketUpdates(step.post, es[1..]);
      assert r.results == [step.result] + rest.results;
      assert r.results[1..] == rest.results;
      UpdateStep(s, es[0], id);
      AppliedUpdatesAreConsecutive(step.post, es[1..], id);
      forall i | 0 <= i < |es| && es[i].id == id && r.results[i].Ack?
        ensures es[i].version == s.tickets[id].version + AppliedTo(id, es[..i], r.results[..i]) + 1
      {
        if i > 0 {
          AppliedToPrefix(id, es, r.results, i);
          assert es[1..][i - 1] == es[i] && rest.results[i - 1] == r.results[i];
        }
      }
    }
  }

  /** Updates to one ticket, each well-formed, carrying the versions just
      above `version` in order. */
  ghost predicate InOrder(id: Id, version: int, es: seq<TicketData>)
  {
    forall i :: 0 <= i < |es| ==>
      es[i].id == id && es[i].version == version + 1 + i && es[i].title != "" && es[i].price >= 0.0
  }

  /** Delivered in order, every update is acknowledged and the ticket ends
      with the last update's title, price and version. */
  lemma {:induction false} InOrderDeliveryAppliesAll(s: State, es: seq<TicketData>, id: Id)
    requires ValidObjectId(id) && id in s.tickets && InOrder(id, s.tickets[id].version, es)
    ensures var r := DeliverTicketUpdates(s, es);
      && (forall i :: 0 <= i < |r.results| ==> r.results[i] == Ack)
      && r.post.tickets[id].version == s.tickets[id].version + |es|
      && (|es| > 0 ==> r.post.tickets[id].title == es[|es| - 1].title && r.post.tickets[id].price == es[|es| - 1].price)
    decreases |es|
  {
    if es != [] {
      var step := TicketUpdated(s, es[0]);
      assert step.result == Ack;
      assert InOrder(id, step.post.tickets[id].version, es[1..]) by {
        forall i | 0 <= i < |es[1..]|
          ensures es[1..][i].id == id && es[1..][i].version == step.post.tickets[id].version + 1 + i
        {
          assert es[1..][i] == es[i + 1];
        }
      }
      InOrderDeliveryAppliesAll(step.post, es[1..], id);
      if |es| == 1 {
        assert DeliverTicketUpdates(step.post, es[1..]).post == step.post;
      } else {
        assert es[1..][|es[1..]| - 1] == es[|es| - 1];
      }
    }
  }

  /** An update delivered again after it was applied finds no ticket at the
      version before its own, so it is refused and changes nothing. */
  lemma ReplayedUpdateIsNoOp(s: State, e: TicketData)
    requires TicketUpdated(s, e).result == Ack
    ensures var post := TicketUpdated(s, e).post;
      TicketUpdated(post, e) == Step(post, NoAck(NotFoundError), [])
  {
  }

  /** An update that arrives ahead of the one before it is refused and
      changes nothing; delivered again after that one, it is applied, and
      the store ends as if both had arrived in order. */
  lemma RedeliveryConverges(s: State, first: TicketData, second: TicketData)
    requires ValidObjectId(first.id) && first.id in s.tickets
    requires InOrder(first.id, s.tickets[first.id].version, [first, second])
    ensures DeliverTicketUpdates(s, [second, first, second]).results == [NoAck(NotFoundError), Ack, Ack]
    ensures DeliverTicketUpdates(s, [second, first, second]).post == DeliverTicketUpdates(s, [first, second]).post
  {
    assert second.id == first.id && second.version == s.tickets[first.id].version + 2 by {
      assert [first, second][1] == second;
    }
    var refused := TicketUpdated(s, second);
    assert refused.post == s && refused.result == NoAck(NotFoundError);
    assert [second, first, second][1..] == [first, second];
    assert [first, second][1..] == [second];
    InOrderDeliveryAppliesAll(s, [first, second], first.id);
  }

  // ----- ticket:created deliveries -----

  /** A ticket:created message delivered twice: the second insert meets the
      stored identity and is refused, so the ticket keeps what the first
      delivery stored. */
  lemma DuplicateTicketCreatedIsRefused(s: State, e: TicketData)
    requires TicketCreated(s, e).result == Ack
    ensures var post := TicketCreated(s, e).post;
      TicketCreated(post, e) == Step(post, NoAck(DuplicateKeyError), [])
  {
  }

  // ----- payment:created and expiration:complete deliveries -----

  /** A message for the order listeners. */
  datatype OrderEvent =
    | PaymentEvent(payment: PaymentCreatedData)
    | ExpirationEvent(expiration: ExpirationCompleteData)

  function HandleOrderEvent(s: State, e: OrderEvent): Step<ListenerResult>
  {
    match e
    case PaymentEvent(data) => PaymentCreated(s, data)
    case ExpirationEvent(data) => ExpirationComplete(s, data)
  }

  /** Delivers payment and expiration messages in the given order to the
      current listeners. No order appears or disappears, tickets are left
      alone, and the outbox only grows. */
  function DeliverOrderEvents(s: State, es: seq<OrderEvent>): (r: Run)
    decreases |es|
    ensures |r.results| == |es|
    ensures r.post.orders.Keys == s.orders.Keys
    ensures r.post.tickets == s.tickets
    ensures |s.outbox| <= |r.post.outbox| && r.post.outbox[..|s.outbox|] == s.outbox
  {
    if es == [] then Run(s, [])
    else
      var step := HandleOrderEvent(s, es[0]);
      var rest := DeliverOrderEvents(step.post, es[1..]);
      Run(rest.post, [step.result] + rest.results)
  }

  /** A cancellation announced for order `id`. */
  predicate AnnouncesCancel(p: Publication, id: Id)
  {
    p.topic == OrderCanceledTopic && p.data.id == id
  }

  /** Once paid, an order stays paid: whatever payment and expiration
      messages follow, in whatever order, it remains Complete and no
      cancellation of it is published. */
  lemma {:induction false} CompleteIsFinal(s: State, es: seq<OrderEvent>, id: Id)
    requires id in s.orders && s.orders[id].status == Complete
    ensures var r := DeliverOrderEvents(s, es);
      && r.post.orders[id].status == Complete
      && forall i :: |s.outbox| <= i < |r.post.outbox| ==> !AnnouncesCancel(r.post.outbox[i], id)
    decreases |es|
  {
    if es != [] {
      var step := HandleOrderEvent(s, es[0]);
      assert step.post.orders[id].status == Complete;
      assert forall i :: |s.outbox| <= i < |step.post.outbox| ==> !AnnouncesCancel(step.post.outbox[i], id);
      var rest := DeliverOrderEvents(step.post, es[1..]);
      CompleteIsFinal(step.post, es[1..], id);
      forall i | |s.outbox| <= i < |rest.post.outbox|
        ensures !AnnouncesCancel(rest.post.outbox[i], id)
      {
        if i < |step.post.outbox| {
          assert rest.post.outbox[i] == rest.post.outbox[..|step.post.outbox|][i];
        }
      }
    }
  }

  /** The older expiration listener, as written, cancels a paid order and
      announces the cancellation; the current listener acknowledges the
      same message and leaves the order paid. */
  lemma LegacyExpirationCancelsComplete(s: State, data: ExpirationCompleteData)
    requires ValidObjectId(data.orderId) && data.orderId in s.orders
    requires s.orders[data.orderId].status == Complete
    requires Orders.WellFormed(s.orders[data.orderId]) && s.orders[data.orderId].ticketId in s.tickets
    ensures var r := LegacyExpirationComplete(s, data);
      && r.result == Ack
      && r.post.orders[data.orderId].status == CanceledExpired
      && |r.post.outbox| == |s.outbox| + 1
      && AnnouncesCancel(r.post.outbox[|s.outbox|], data.orderId)
    ensures ExpirationComplete(s, data) == Step(s, Ack, [Acked])
  {
  }

  /** Neither expiration listener guards against an order that is already
      canceled: it is marked CanceledExpired again and its cancellation is
      announced a second time. */
  lemma ExpirationRecancelsCanceled(s: State, data: ExpirationCompleteData)
    requires ValidObjectId(data.orderId) && data.orderId in s.orders
    requires s.orders[data.orderId].status == CanceledByUser || s.orders[data.orderId].status == CanceledExpired
    requires Orders.WellFormed(s.orders[data.orderId]) && s.orders[data.orderId].ticketId in s.tickets
    ensures var r := ExpirationComplete(s, data);
      && r.result == Ack
      && r.post.orders[data.orderId].status == CanceledExpired
      && r.post.orders[data.orderId].version == s.orders[data.orderId].version + 1
      && |r.post.outbox| == |s.outbox| + 1
      && AnnouncesCancel(r.post.outbox[|s.outbox|], data.orderId)
    ensures ExpirationComplete(s, data) == LegacyExpirationComplete(s, data)
  {
  }
}
