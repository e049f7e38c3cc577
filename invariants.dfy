/** What each handler does to the service's invariants: consistency of the
    stored documents, and exclusive reservation of tickets. Every handler
    keeps both, except the payment listener, which keeps consistency but can
    give a ticket a second reserving order. */
module Invariants {
  import opened Common
  import opened Events
  import opened Store
  import opened Listeners
  import opened Routes
  import Orders
  import Tickets

  lemma TicketCreatedPreservesInv(s: State, data: TicketData)
    requires Inv(s)
    ensures Inv(TicketCreated(s, data).post)
  {
  }

  lemma TicketUpdatedPreservesInv(s: State, data: TicketData)
    requires Inv(s)
    ensures Inv(TicketUpdated(s, data).post)
  {
  }

  /** Payment keeps the stored documents consistent. */
  lemma PaymentCreatedPreservesConsistent(s: State, data: PaymentCreatedData)
    requires Consistent(s)
    ensures Consistent(PaymentCreated(s, data).post)
  {
  }

  /** Paying for an order that already holds its ticket keeps reservations
      exclusive. */
  lemma PaymentOnReservingOrderPreservesInv(s: State, data: PaymentCreatedData)
    requires Inv(s)
    requires data.orderId in s.orders ==> Reserving(s.orders[data.orderId].status)
    ensures Inv(PaymentCreated(s, data).post)
  {
  }

  /** Paying for a canceled order marks it Complete even when another order
      has reserved its ticket since: two orders then hold the same ticket. */
  lemma PaymentCanDoubleReserve(s: State, data: PaymentCreatedData, other: Id)
    requires Inv(s)
    requires ValidObjectId(data.orderId) && data.orderId in s.orders && !Reserving(s.orders[data.orderId].status)
    requires other in s.orders && other != data.orderId
    requires s.orders[other].ticketId == s.orders[data.orderId].ticketId && Reserving(s.orders[other].status)
    ensures PaymentCreated(s, data).result == Ack
    ensures !ExclusiveReservations(PaymentCreated(s, data).post.orders)
  {
  }

  /** A ticket whose first order expired and whose second order is placed. */
  function ReservedAgain(): (s: State)
  {
    var ticketId := "ticket000001";
    State(map[ticketId := Tickets.Ticket("Test Ticket", 20.0, 0)],
          map["orderA000001" := Orders.Order("userA", CanceledExpired, 900, ticketId, 1),
              "orderB000001" := Orders.Order("userB", Created, 1000, ticketId, 0)],
          [])
  }

  /** Such a state is reachable-shaped: it satisfies the invariants, and
      paying for its expired order gives the ticket two reserving orders. */
  lemma ReservedAgainDoubleReserves()
    ensures Inv(ReservedAgain())
    ensures var data := PaymentCreatedData("payment00001", "orderA000001", "stripe");
      && PaymentCreated(ReservedAgain(), data).result == Ack
      && !ExclusiveReservations(PaymentCreated(ReservedAgain(), data).post.orders)
  {
    var s := ReservedAgain();
    var first, second := "orderA000001", "orderB000001";
    assert first != second by { assert first[5] != second[5]; }
    assert s.orders.Keys == {first, second};
    assert Consistent(s);
    assert ExclusiveReservations(s.orders) by {
      forall a, b | a in s.orders && b in s.orders && a != b
        ensures !(Reserving(s.orders[a].status) && Reserving(s.orders[b].status))
      {
        assert a == first || b == first;
      }
    }
    PaymentCanDoubleReserve(s, PaymentCreatedData("payment00001", first, "stripe"), second);
  }

  /** While the store is consistent, the expiration listener always finds
      the ticket it loaded with the order, so once it has saved it also
      publishes and acknowledges. */
  lemma ConsistentExpirationAcknowledges(s: State, data: ExpirationCompleteData)
    requires Consistent(s)
    requires ValidObjectId(data.orderId) && data.orderId in s.orders
    ensures ExpirationComplete(s, data).result == Ack
    ensures LegacyExpirationComplete(s, data).result == Ack
  {
  }

  lemma ExpirationCompletePreservesInv(s: State, data: ExpirationCompleteData)
    requires Inv(s)
    ensures Inv(ExpirationComplete(s, data).post)
  {
  }

  lemma LegacyExpirationCompletePreservesInv(s: State, data: ExpirationCompleteData)
    requires Inv(s)
    ensures Inv(LegacyExpirationComplete(s, data).post)
  {
  }

  /** Placing an order keeps reservations exclusive: the reservation check
      runs before the new order is stored. */
  lemma NewOrderPreservesInv(s: State, user: Option<UserId>, ticketId: Option<string>, now: int, newId: Id)
    requires Inv(s)
    ensures Inv(NewOrder(s, user, ticketId, now, newId).post)
  {
  }

  /** After an order is placed its ticket is reserved. */
  lemma NewOrderReservesTicket(s: State, user: Option<UserId>, ticketId: Option<string>, now: int, newId: Id)
    requires NewOrder(s, user, ticketId, now, newId).result.Created201?
    ensures Tickets.IsReserved(NewOrder(s, user, ticketId, now, newId).post.orders, ticketId.value)
  {
  }

  lemma DeleteOrderPreservesInv(s: State, user: Option<UserId>, orderId: Id)
    requires Inv(s)
    ensures Inv(DeleteOrder(s, user, orderId).post)
  {
  }

  /** After a cancellation the ticket stays reserved exactly when another
      order holds it; with exclusive reservations and a canceled order that
      held it, the ticket is free again. */
  lemma DeleteOrderReleasesTicket(s: State, user: Option<UserId>, orderId: Id)
    requires DeleteOrder(s, user, orderId).result.NoContent204?
    ensures var ticketId := s.orders[orderId].ticketId;
      Tickets.IsReserved(DeleteOrder(s, user, orderId).post.orders, ticketId) <==>
        exists id :: id in s.orders && id != orderId && s.orders[id].ticketId == ticketId && Reserving(s.orders[id].status)
    ensures ExclusiveReservations(s.orders) && Reserving(s.orders[orderId].status) ==>
      !Tickets.IsReserved(DeleteOrder(s, user, orderId).post.orders, s.orders[orderId].ticketId)
  {
  }
}
