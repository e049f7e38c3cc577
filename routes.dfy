/** The business logic of the three order routes: POST /api/orders (place
    an order), DELETE /api/orders/:orderId (cancel it) and
    GET /api/orders/:orderId (show it). The current user is the session's
    user, absent when the request is not authenticated; `now` is the clock
    reading in seconds. */
module Routes {
  import opened Common
  import opened Events
  import opened Store
  import Orders
  import Tickets

  /** How long a new order holds its ticket: fifteen minutes. */
  const ExpirationWindowSeconds: int := 15 * 60

  /** POST /api/orders with body field `ticketId`, the new order to be
      stored under `newId` (the identity the store generates). */
  function NewOrder(s: State, user: Option<UserId>, ticketId: Option<string>, now: int, newId: Id): (r: Step<Response>)
    ensures user.None? ==> r.result == NotAuthorized401
    ensures user.Some? && (ticketId.None? || !ValidObjectId(ticketId.value)) ==> r.result == BadRequest400
    ensures user.Some? && ticketId.Some? && ValidObjectId(ticketId.value) && ticketId.value !in s.tickets ==>
      r.result == NotFound404
    ensures (&& user.Some? && ticketId.Some? && ValidObjectId(ticketId.value) && ticketId.value in s.tickets
             && Tickets.IsReserved(s.orders, ticketId.value))
      ==> r.result == BadRequest400
    ensures r.result.Created201? <==>
      && user.Some? && ticketId.Some? && ValidObjectId(ticketId.value) && ticketId.value in s.tickets
      && !Tickets.IsReserved(s.orders, ticketId.value)
      && ValidObjectId(newId) && user.value != "" && newId !in s.orders
    ensures r.result.Created201? ==>
      && r.result.id == newId
      && r.result.order == Orders.Order(user.value, Created, now + 900, ticketId.value, 0)
      && r.post.orders.Keys == s.orders.Keys + {newId}
      && r.post.orders[newId] == r.result.order
      && (forall id :: id in s.orders ==> r.post.orders[id] == s.orders[id])
      && r.effects == [Wrote(OrdersCollection, newId)]
    ensures !r.result.Created201? ==> r.post == s && r.effects == []
    ensures r.post.tickets == s.tickets && r.post.outbox == s.outbox
  {
    if user.None? then Step(s, NotAuthorized401, [])
    else if ticketId.None? || ticketId.value == "" || !ValidObjectId(ticketId.value) then Step(s, BadRequest400, [])
    else
      match FindById(s.tickets, ticketId.value)
      case Failure(e) => Step(s, Unhandled(e), [])
      case Success(None) => Step(s, NotFound404, [])
      case Success(Some(_)) =>
        if Tickets.IsReserved(s.orders, ticketId.value) then Step(s, BadRequest400, [])
        else
          var attrs := Orders.OrderAttrs(user.value, Some(Created), now + ExpirationWindowSeconds, ticketId.value);
          match Orders.Insert(s.orders, Orders.Build(newId, attrs))
          case Failure(e) => Step(s, Unhandled(e), [])
          case Success(orders) => Step(s.(orders := orders), Created201(newId, orders[newId]), [Wrote(OrdersCollection, newId)])
  }

  /** DELETE /api/orders/:orderId — the owner's order becomes
      CanceledByUser whatever its status. Every failure inside the handler
      (malformed id, no such order, another user's order, refused save) is
      rethrown as a bad request. */
  function DeleteOrder(s: State, user: Option<UserId>, orderId: Id): (r: Step<Response>)
    ensures r.result == NotAuthorized401 <==> user.None?
    ensures r.result.NoContent204? <==>
      && user.Some? && ValidObjectId(orderId) && orderId in s.orders
      && s.orders[orderId].userId == user.value && Orders.WellFormed(s.orders[orderId])
    ensures r.result.NoContent204? || r.result.BadRequest400? || r.result.NotAuthorized401?
    ensures r.result.NoContent204? ==>
      && r.post.orders.Keys == s.orders.Keys
      && r.post.orders[orderId] ==
           s.orders[orderId].(status := CanceledByUser, version := s.orders[orderId].version + 1)
      && (forall id :: id in s.orders && id != orderId ==> r.post.orders[id] == s.orders[id])
      && r.effects == [Wrote(OrdersCollection, orderId)]
    ensures !r.result.NoContent204? ==> r.post == s && r.effects == []
    ensures r.post.tickets == s.tickets && r.post.outbox == s.outbox
  {
    if user.None? then Step(s, NotAuthorized401, [])
    else
      match FindById(s.orders, orderId)
      case Failure(_) => Step(s, BadRequest400, [])
      case Success(None) => Step(s, BadRequest400, [])
      case Success(Some(order)) =>
        if order.userId != user.value then Step(s, BadRequest400, [])
        else
          match Orders.Save(s.orders, Orders.OrderDoc(orderId, order.(status := CanceledByUser)))
          case Failure(_) => Step(s, BadRequest400, [])
          case Success(orders) => Step(s.(orders := orders), NoContent204, [Wrote(OrdersCollection, orderId)])
  }

  /** GET /api/orders/:orderId — a lookup and two checks, in that order;
      the route does not demand authentication, so without a session the
      ownership check reads a missing user. */
  function ShowOrder(s: State, user: Option<UserId>, orderId: Id): (r: Response)
    ensures !ValidObjectId(orderId) ==> r == Unhandled(CastError)
    ensures r == NotFound404 <==> ValidObjectId(orderId) && orderId !in s.orders
    ensures r == NotAuthorized401 <==>
      ValidObjectId(orderId) && orderId in s.orders && user.Some? && user.value != s.orders[orderId].userId
    ensures r.Ok200? <==> ValidObjectId(orderId) && orderId in s.orders && user == Some(s.orders[orderId].userId)
    ensures r.Ok200? ==> r.id == orderId && r.order == s.orders[orderId]
    ensures ValidObjectId(orderId) && orderId in s.orders && user.None? ==> r == Unhandled(TypeError)
  {
    match FindById(s.orders, orderId)
    case Failure(e) => Unhandled(e)
    case Success(None) => NotFound404
    case Success(Some(order)) =>
      if user.None? then Unhandled(TypeError)
      else if order.userId != user.value then NotAuthorized401
      else Ok200(orderId, order)
  }

  /** A malformed order id is answered with 400 by both order routes: the
      cancel route rewraps the cast error, and the show route lets it reach
      the shared error handler. */
  lemma MalformedOrderIdIsBadRequest(s: State, user: Option<UserId>, orderId: Id)
    requires !ValidObjectId(orderId)
    ensures StatusCode(ShowOrder(s, user, orderId)) == 400
    ensures user.Some? ==> StatusCode(DeleteOrder(s, user, orderId).result) == 400
  {
  }

  // ----- The routes as they run against the service -----

  method HandleNewOrder(svc: Service, user: Option<UserId>, ticketId: Option<string>, now: int, newId: Id)
    returns (r: Response)
    modifies svc
    ensures svc.Snapshot() == NewOrder(old(svc.Snapshot()), user, ticketId, now, newId).post
    ensures r == NewOrder(old(svc.Snapshot()), user, ticketId, now, newId).result
    ensures svc.effects == old(svc.effects) + NewOrder(old(svc.Snapshot()), user, ticketId, now, newId).effects
  {
    if user.None? {
      return NotAuthorized401;
    }
    if ticketId.None? || ticketId.value == "" || !ValidObjectId(ticketId.value) {
      return BadRequest400;
    }
    var found := FindById(svc.tickets, ticketId.value);
    match found {
      case Failure(e) => return Unhandled(e);
      case Success(None) => return NotFound404;
      case Success(Some(_)) =>
    }
    var isReserved := Tickets.IsReserved(svc.orders, ticketId.value);
    if isReserved {
      return BadRequest400;
    }
    var expiresAt := now;
    expiresAt := expiresAt + ExpirationWindowSeconds;
    var order := Orders.Build(newId, Orders.OrderAttrs(user.value, Some(Created), expiresAt, ticketId.value));
    var err := svc.InsertOrder(order);
    if err.Some? {
      return Unhandled(err.value);
    }
    r := Created201(newId, svc.orders[newId]);
  }

  method HandleDeleteOrder(svc: Service, user: Option<UserId>, orderId: Id) returns (r: Response)
    modifies svc
    ensures svc.Snapshot() == DeleteOrder(old(svc.Snapshot()), user, orderId).post
    ensures r == DeleteOrder(old(svc.Snapshot()), user, orderId).result
    ensures svc.effects == old(svc.effects) + DeleteOrder(old(svc.Snapshot()), user, orderId).effects
  {
    if user.None? {
      return NotAuthorized401;
    }
    var found := FindById(svc.orders, orderId);
    if found.Failure? || found.value.None? {
      return BadRequest400;
    }
    var order := found.value.value;
    if order.userId != user.value {
      return BadRequest400;
    }
    order := order.(status := CanceledByUser);
    var err := svc.SaveOrder(Orders.OrderDoc(orderId, order));
    if err.Some? {
      return BadRequest400;
    }
    r := NoContent204;
  }
}
