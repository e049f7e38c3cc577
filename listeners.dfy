/** The four inbound event listeners (and the older expiration listener of
    the first snapshot of the service). Each is given twice: as a function
    from the state before to the `Step` it performs, which states what the
    listener does, and as a method that performs it on the `Service` one
    store operation at a time and is proved to agree with the function. */
module Listeners {
  import opened Common
  import opened Events
  import opened Store
  import Orders
  import Tickets

  /** ticket:created — build the local ticket from the event's id, title and
      price, insert it, acknowledge. */
  function TicketCreated(s: State, data: TicketData): (r: Step<ListenerResult>)
    ensures r.result.Ack? <==>
      ValidObjectId(data.id) && data.title != "" && data.price >= 0.0 && data.id !in s.tickets
    ensures r.result.Ack? ==>
      && r.post.tickets.Keys == s.tickets.Keys + {data.id}
      && r.post.tickets[data.id] == Tickets.Ticket(data.title, data.price, 0)
      && (forall id :: id in s.tickets ==> r.post.tickets[id] == s.tickets[id])
      && r.effects == [Wrote(TicketsCollection, data.id), Acked]
    ensures r.result.NoAck? ==> r.post == s && r.effects == []
    ensures r.post.orders == s.orders && r.post.outbox == s.outbox
  {
    var doc := Tickets.Build(Tickets.TicketAttrs(data.id, data.title, data.price));
    match Tickets.Insert(s.tickets, doc)
    case Failure(e) => Step(s, NoAck(e), [])
    case Success(tickets) => Step(s.(tickets := tickets), Ack, [Wrote(TicketsCollection, data.id), Acked])
  }

  /** ticket:updated — find the ticket at the version just before the
      event's, take title, price and version from the event, save through
      the version gate, acknowledge. Anything else throws and leaves the
      message unacknowledged. */
  function TicketUpdated(s: State, data: TicketData): (r: Step<ListenerResult>)
    ensures r.result.Ack? <==>
      && ValidObjectId(data.id) && data.id in s.tickets && s.tickets[data.id].version == data.version - 1
      && data.title != "" && data.price >= 0.0
    ensures ValidObjectId(data.id) && !(data.id in s.tickets && s.tickets[data.id].version == data.version - 1)
      ==> r.result == NoAck(NotFoundError)
    ensures r.result.Ack? ==>
      && r.post.tickets.Keys == s.tickets.Keys
      && r.post.tickets[data.id].title == data.title
      && r.post.tickets[data.id].price == data.price
      && r.post.tickets[data.id].version == data.version == s.tickets[data.id].version + 1
      && (forall id :: id in s.tickets && id != data.id ==> r.post.tickets[id] == s.tickets[id])
      && r.effects == [Wrote(TicketsCollection, data.id), Acked]
    ensures r.result.NoAck? ==> r.post == s && r.effects == []
    ensures r.post.orders == s.orders && r.post.outbox == s.outbox
  {
    match Tickets.FindByIdAndPreviousVersion(s.tickets, data.id, data.version)
    case Failure(e) => Step(s, NoAck(e), [])
    case Success(None) => Step(s, NoAck(NotFoundError), [])
    case Success(Some(t)) =>
      var doc := Tickets.TicketDoc(data.id, t.(title := data.title, price := data.price, version := data.version));
      match Tickets.Save(s.tickets, doc)
      case Failure(e) => Step(s, NoAck(e), [])
      case Success(tickets) => Step(s.(tickets := tickets), Ack, [Wrote(TicketsCollection, data.id), Acked])
  }

  /** payment:created — find the order, mark it Complete whatever its
      status, save, acknowledge. */
  function PaymentCreated(s: State, data: PaymentCreatedData): (r: Step<ListenerResult>)
    ensures r.result.Ack? <==>
      ValidObjectId(data.orderId) && data.orderId in s.orders && Orders.WellFormed(s.orders[data.orderId])
    ensures !ValidObjectId(data.orderId) ==> r.result == NoAck(CastError)
    ensures ValidObjectId(data.orderId) && data.orderId !in s.orders ==> r.result == NoAck(NotFoundError)
    ensures ValidObjectId(data.orderId) && data.orderId in s.orders && !Orders.WellFormed(s.orders[data.orderId]) ==>
      r.result == NoAck(ValidationError)
    ensures r.result.Ack? ==>
      && r.post.orders.Keys == s.orders.Keys
      && r.post.orders[data.orderId] ==
           s.orders[data.orderId].(status := Complete, version := s.orders[data.orderId].version + 1)
      && (forall id :: id in s.orders && id != data.orderId ==> r.post.orders[id] == s.orders[id])
      && r.effects == [Wrote(OrdersCollection, data.orderId), Acked]
    ensures r.result.NoAck? ==> r.post == s && r.effects == []
    ensures r.post.tickets == s.tickets && r.post.outbox == s.outbox
  {
    match FindById(s.orders, data.orderId)
    case Failure(e) => Step(s, NoAck(e), [])
    case Success(None) => Step(s, NoAck(NotFoundError), [])
    case Success(Some(order)) =>
      match Orders.Save(s.orders, Orders.OrderDoc(data.orderId, order.(status := Complete)))
      case Failure(e) => Step(s, NoAck(e), [])
      case Success(orders) => Step(s.(orders := orders), Ack, [Wrote(OrdersCollection, data.orderId), Acked])
  }

  /** The order-canceled message announcing that `order`, stored under `id`,
      was saved as CanceledExpired at `version`; its ticket is the one the
      order was loaded with. */
  function CanceledMessage(id: Id, order: Orders.Order, version: nat, ticket: Tickets.Ticket): Publication
  {
    Publication(OrderCanceledTopic,
      OrderEventData(id, version, order.userId, CanceledExpired, order.expiresAt,
        TicketSummary(order.ticketId, ticket.title, ticket.price, ticket.version)))
  }

  /** The part both expiration listeners share once the order is loaded:
      mark it CanceledExpired, save, publish order:canceled, acknowledge.
      The ticket was loaded together with the order; when it is missing,
      building the message fails after the save has committed. */
  function ExpireOrder(s: State, id: Id, order: Orders.Order): (r: Step<ListenerResult>)
    requires id in s.orders && order == s.orders[id]
    ensures r.result.Ack? <==> Orders.WellFormed(order) && order.ticketId in s.tickets
    ensures r.post.orders.Keys == s.orders.Keys
    ensures forall k :: k in s.orders && k != id ==> r.post.orders[k] == s.orders[k]
    ensures r.result.Ack? ==>
      r.post.orders[id] == order.(status := CanceledExpired, version := order.version + 1)
      && r.post.outbox == s.outbox + [CanceledMessage(id, order, order.version + 1, s.tickets[order.ticketId])]
      && r.effects == [Wrote(OrdersCollection, id), Published(OrderCanceledTopic, id), Acked]
    ensures !Orders.WellFormed(order) ==> r.post == s && r.effects == [] && r.result == NoAck(ValidationError)
    ensures Orders.WellFormed(order) && order.ticketId !in s.tickets ==>
      && r.result == NoAck(TypeError)
      && r.post.orders[id].status == CanceledExpired && r.post.outbox == s.outbox
      && r.effects == [Wrote(OrdersCollection, id)]
    ensures r.post.tickets == s.tickets
  {
    match Orders.Save(s.orders, Orders.OrderDoc(id, order.(status := CanceledExpired)))
    case Failure(e) => Step(s, NoAck(e), [])
    case Success(orders) =>
      if order.ticketId in s.tickets then
        var message := CanceledMessage(id, order, orders[id].version, s.tickets[order.ticketId]);
        Step(State(s.tickets, orders, s.outbox + [message]), Ack,
             [Wrote(OrdersCollection, id), Published(OrderCanceledTopic, id), Acked])
      else
        Step(s.(orders := orders), NoAck(TypeError), [Wrote(OrdersCollection, id)])
  }

  /** expiration:complete, current version — find the order; a Complete
      order is acknowledged untouched (payment won the race); any other is
      expired. */
  function ExpirationComplete(s: State, data: ExpirationCompleteData): (r: Step<ListenerResult>)
    ensures ValidObjectId(data.orderId) && data.orderId !in s.orders ==>
      r.result == NoAck(NotFoundError) && r.post == s && r.effects == []
    ensures ValidObjectId(data.orderId) && data.orderId in s.orders && s.orders[data.orderId].status == Complete ==>
      r.result == Ack && r.post == s && r.effects == [Acked]
    ensures ValidObjectId(data.orderId) && data.orderId in s.orders && s.orders[data.orderId].status != Complete ==>
      r == ExpireOrder(s, data.orderId, s.orders[data.orderId])
    ensures !ValidObjectId(data.orderId) ==> r.result == NoAck(CastError) && r.post == s && r.effects == []
  {
    match FindById(s.orders, data.orderId)
    case Failure(e) => Step(s, NoAck(e), [])
    case Success(None) => Step(s, NoAck(NotFoundError), [])
    case Success(Some(order)) =>
      if order.status == Complete then Step(s, Ack, [Acked])
      else ExpireOrder(s, data.orderId, order)
  }

  /** expiration:complete, first version — the same without the Complete
      guard: every order found is expired. */
  function LegacyExpirationComplete(s: State, data: ExpirationCompleteData): (r: Step<ListenerResult>)
    ensures ValidObjectId(data.orderId) && data.orderId !in s.orders ==>
      r.result == NoAck(NotFoundError) && r.post == s && r.effects == []
    ensures ValidObjectId(data.orderId) && data.orderId in s.orders ==>
      r == ExpireOrder(s, data.orderId, s.orders[data.orderId])
    ensures !ValidObjectId(data.orderId) ==> r.result == NoAck(CastError) && r.post == s && r.effects == []
  {
    match FindById(s.orders, data.orderId)
    case Failure(e) => Step(s, NoAck(e), [])
    case Success(None) => Step(s, NoAck(NotFoundError), [])
    case Success(Some(order)) => ExpireOrder(s, data.orderId, order)
  }

  // ----- The listeners as they run against the service -----

  method OnTicketCreated(svc: Service, data: TicketData) returns (r: ListenerResult)
    modifies svc
    ensures svc.Snapshot() == TicketCreated(old(svc.Snapshot()), data).post
    ensures r == TicketCreated(old(svc.Snapshot()), data).result
    ensures svc.effects == old(svc.effects) + TicketCreated(old(svc.Snapshot()), data).effects
  {
    var ticket := Tickets.Build(Tickets.TicketAttrs(data.id, data.title, data.price));
    var err := svc.InsertTicket(ticket);
    if err.Some? {
      return NoAck(err.value);
    }
    svc.Ack();
    r := Ack;
  }

  method OnTicketUpdated(svc: Service, data: TicketData) returns (r: ListenerResult)
    modifies svc
    ensures svc.Snapshot() == TicketUpdated(old(svc.Snapshot()), data).post
    ensures r == TicketUpdated(old(svc.Snapshot()), data).result
    ensures svc.effects == old(svc.effects) + TicketUpdated(old(svc.Snapshot()), data).effects
  {
    var found := Tickets.FindByIdAndPreviousVersion(svc.tickets, data.id, data.version);
    if found.Failure? {
      return NoAck(found.error);
    }
    if found.value.None? {
      return NoAck(NotFoundError);
    }
    var ticket := found.value.value;
    ticket := ticket.(title := data.title, price := data.price, version := data.version);
    var err := svc.SaveTicket(Tickets.TicketDoc(data.id, ticket));
    if err.Some? {
      return NoAck(err.value);
    }
    svc.Ack();
    r := Ack;
  }

  method OnPaymentCreated(svc: Service, data: PaymentCreatedData) returns (r: ListenerResult)
    modifies svc
    ensures svc.Snapshot() == PaymentCreated(old(svc.Snapshot()), data).post
    ensures r == PaymentCreated(old(svc.Snapshot()), data).result
    ensures svc.effects == old(svc.effects) + PaymentCreated(old(svc.Snapshot()), data).effects
  {
    var found := FindById(svc.orders, data.orderId);
    if found.Failure? {
      return NoAck(found.error);
    }
    if found.value.None? {
      return NoAck(NotFoundError);
    }
    var order := found.value.value;
    order := order.(status := Complete);
    var err := svc.SaveOrder(Orders.OrderDoc(data.orderId, order));
    if err.Some? {
      return NoAck(err.value);
    }
    svc.Ack();
    r := Ack;
  }

  /** The steps both expiration listeners take once the order (and its
      ticket) are loaded. */
  method Expire(svc: Service, id: Id, order: Orders.Order, ticket: Option<Tickets.Ticket>) returns (r: ListenerResult)
    requires id in svc.orders && order == svc.orders[id]
    requires ticket == (if order.ticketId in svc.tickets then Some(svc.tickets[order.ticketId]) else None)
    modifies svc
    ensures svc.Snapshot() == ExpireOrder(old(svc.Snapshot()), id, order).post
    ensures r == ExpireOrder(old(svc.Snapshot()), id, order).result
    ensures svc.effects == old(svc.effects) + ExpireOrder(old(svc.Snapshot()), id, order).effects
  {
    var canceled := order.(status := CanceledExpired);
    var err := svc.SaveOrder(Orders.OrderDoc(id, canceled));
    if err.Some? {
      return NoAck(err.value);
    }
    canceled := canceled.(version := canceled.version + 1);
    if ticket.None? {
      return NoAck(TypeError);
    }
    svc.Publish(CanceledMessage(id, order, canceled.version, ticket.value));
    svc.Ack();
    r := Ack;
  }

  method OnExpirationComplete(svc: Service, data: ExpirationCompleteData) returns (r: ListenerResult)
    modifies svc
    ensures svc.Snapshot() == ExpirationComplete(old(svc.Snapshot()), data).post
    ensures r == ExpirationComplete(old(svc.Snapshot()), data).result
    ensures svc.effects == old(svc.effects) + ExpirationComplete(old(svc.Snapshot()), data).effects
  {
    var found := FindById(svc.orders, data.orderId);
    if found.Failure? {
      return NoAck(found.error);
    }
    if found.value.None? {
      return NoAck(NotFoundError);
    }
    var order := found.value.value;
    var ticket := if order.ticketId in svc.tickets then Some(svc.tickets[order.ticketId]) else None;
    if order.status == Complete {
      svc.Ack();
      return Ack;
    }
    r := Expire(svc, data.orderId, order, ticket);
  }

  method OnLegacyExpirationComplete(svc: Service, data: ExpirationCompleteData) returns (r: ListenerResult)
    modifies svc
    ensures svc.Snapshot() == LegacyExpirationComplete(old(svc.Snapshot()), data).post
    ensures r == LegacyExpirationComplete(old(svc.Snapshot()), data).result
    ensures svc.effects == old(svc.effects) + LegacyExpirationComplete(old(svc.Snapshot()), data).effects
  {
    var found := FindById(svc.orders, data.orderId);
    if found.Failure? {
      return NoAck(found.error);
    }
    if found.value.None? {
      return NoAck(NotFoundError);
    }
    var order := found.value.value;
    var ticket := if order.ticketId in svc.tickets then Some(svc.tickets[order.ticketId]) else None;
    r := Expire(svc, data.orderId, order, ticket);
  }
}
