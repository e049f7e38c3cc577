/** The messages the service exchanges: the payloads of the four inbound
    topics, the order-canceled payload it publishes, what
    a listener does with its message, and what an HTTP handler answers. */
module Events {
  import opened Common
  import Orders

  /** Payload of ticket:created and ticket:updated. */
  datatype TicketData = TicketData(id: Id, version: int, title: string, price: real, userId: UserId)

  /** Payload of payment:created. */
  datatype PaymentCreatedData = PaymentCreatedData(id: Id, orderId: Id, stripeId: string)

  /** Payload of expiration:complete. */
  datatype ExpirationCompleteData = ExpirationCompleteData(orderId: Id)

  /** The only topic a modelled handler publishes to. */
  datatype Topic = OrderCanceledTopic

  /** The ticket as embedded in an outbound order event. */
  datatype TicketSummary = TicketSummary(id: Id, title: string, price: real, version: nat)

  /** Payload of order:canceled. */
  datatype OrderEventData = OrderEventData(
    id: Id,
    version: nat,
    userId: UserId,
    status: OrderStatus,
    expiresAt: int,
    ticket: TicketSummary)

  /** One message handed to the transport. */
  datatype Publication = Publication(topic: Topic, data: OrderEventData)

  datatype Collection = TicketsCollection | OrdersCollection

  /** The observable effects of a handler, in the order they happen: a
      write committed to the store, a publish handed to the transport, the
      acknowledgement of the inbound message. */
  datatype Effect =
    | Wrote(collection: Collection, id: Id)
    | Published(topic: Topic, orderId: Id)
    | Acked

  /** How a listener invocation ends: it acknowledged its message, or it
      threw, leaving the message for redelivery. */
  datatype ListenerResult = Ack | NoAck(error: Error)

  /** How an HTTP handler ends. `Unhandled` is an error that is none of the
      shared library's typed errors; the shared error handler answers it. */
  datatype Response =
    | Created201(id: Id, order: Orders.Order)
    | Ok200(id: Id, order: Orders.Order)
    | NoContent204
    | NotFound404
    | BadRequest400
    | NotAuthorized401
    | Unhandled(error: Error)

  /** The HTTP status code of each response. An unhandled error is answered
      with 400 by the shared error handler. */
  function StatusCode(r: Response): (code: int)
    ensures 200 <= code < 500
    ensures code == 400 <==> r.BadRequest400? || r.Unhandled?
    ensures r.Created201? <==> code == 201
    ensures r.Ok200? <==> code == 200
    ensures r.NoContent204? <==> code == 204
    ensures r.NotFound404? <==> code == 404
    ensures r.NotAuthorized401? <==> code == 401
  {
    match r
    case Created201(_, _) => 201
    case Ok200(_, _) => 200
    case NoContent204 => 204
    case NotFound404 => 404
    case BadRequest400 => 400
    case NotAuthorized401 => 401
    case Unhandled(_) => 400
  }
}
