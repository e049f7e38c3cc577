# Orders service — a verified model

This project models the orders service of a ticket-selling system. The
service keeps a local copy of the tickets that the catalog service owns.
It lets users place, cancel and view orders for those tickets, and it
reacts to events from the other services: a ticket was created or updated,
a payment was made, an order's reservation window ran out.

The model has these parts:

- **Store.** The two document collections (tickets and orders) and the
  transport's outbox. They appear as a value, `Store.State`, and as a
  class changed in place, `Store.Service`. The class records every
  committed write, every publish and every acknowledgement, in order, in a
  ghost trace `effects`.
- **Ticket and order models** (`Tickets`, `Orders`):
  - the schema of each document;
  - `build`;
  - the two ways a save reaches the store: an insert of a new document at
    version 0, and a version-checked update of an existing one;
  - the lookup of a ticket at the version just before an event's;
  - the reservation rule.
- **Listeners** (`Listeners`): ticket:created, ticket:updated,
  payment:created and expiration:complete. The expiration listener comes in
  two versions: the current one, which leaves a paid (Complete) order
  alone, and the older one, which has no such guard.
- **Routes** (`Routes`): the business logic of POST /api/orders,
  DELETE /api/orders/:orderId and GET /api/orders/:orderId.

Each handler that changes state is written twice:

- A function from the state before to a `Step`: the state after, the
  outcome, and the effects in order. Its contract states what the handler
  does.
- A method that performs the same steps on the `Service`, one store
  operation at a time. It is proved to agree with the function.

The show route only reads, so it is a function alone (`Routes.ShowOrder`)
and has no `Service` method.

Around the handlers:

- `Invariants` proves which handlers keep the store consistent and which
  keep ticket reservations exclusive.
- `Delivery` folds the listeners over sequences of messages. This covers
  out-of-order, duplicate and repeated delivery.

Identities are strings. `ValidObjectId` accepts what an ObjectId cast
accepts: any 12 characters, or 24 hexadecimal digits. A lookup with a
malformed identity fails with a cast error. The current user and the
clock (`now`, in whole seconds) are parameters. So is the identity the
store generates for a new order (`newId`).

## Model

| member | source | states |
|---|---|---|
| Common.ValidObjectId | src/routes/new.ts:29-34 | What the ObjectId check and cast accept: any twelve characters, or twenty-four hexadecimal digits; nothing else (an empty id included). |
| Common.FindById | src/routes/show.ts:14-18 | A lookup fails with a cast error exactly when the identity is malformed. Otherwise it finds a document exactly when one is stored under that identity, and returns the stored document. |
| Orders.WellFormed | orders/src/models/order.ts:28-37 | The order schema: the user id is required. The status is always one of the five enumeration values, because it is a datatype. |
| Orders.Build | orders/src/models/order.ts:76-78 | A built order keeps the identity it is given and starts at version 0. |
| Orders.Insert | orders/src/models/order.ts:28-37 | A new order is stored exactly when its identity is well-formed and unused and it has a user id. It is stored at version 0, and every other order is unchanged. |
| Orders.Save | orders/src/models/order.ts:59-61 | An update applies exactly when the stored version equals the version the document was read at and the document satisfies its schema. A document that breaks its schema is a validation error, and a version mismatch a version error. It raises the version by exactly one, stores the document's fields and leaves other orders alone. |
| Orders.InsertBuilt | orders/src/models/order.ts:32-37 | Building then inserting stores exactly the given user, status, expiry and ticket at version 0. The status defaults to Created. An order without a user id is not stored. |
| Orders.StaleCopyRejected | orders/src/models/order.ts:59-61 | Of two writers that read the same version of an order, the second save is rejected. |
| Tickets.WellFormed | src/models/ticket.ts:22-33 | The ticket schema: the title is required and the price may not be below zero. |
| Tickets.IsReserved | src/models/ticket.ts:85-107 | The reservation rule: a ticket is reserved exactly when some stored order references it with status Created, AwaitingPayment or Complete. It only reads the orders. |
| Tickets.Build | src/models/ticket.ts:69-76 | A built ticket keeps the supplied identity and starts at version 0. |
| Tickets.Insert | src/models/ticket.ts:22-32 | A new ticket is stored exactly when its identity is well-formed and unused, its title is present and its price is not negative. It is stored at version 0, and other tickets are unchanged. |
| Tickets.Save | src/models/ticket.ts:52-60 | An update applies exactly when the stored version is one less than the document's and the document satisfies its schema. A document that breaks its schema is a validation error, and a version mismatch a version error. The stored version then rises by exactly one. Any refused save leaves the store unchanged. |
| Tickets.FindByIdAndPreviousVersion | src/models/ticket.ts:62-67 | A ticket is returned exactly when one is stored under the identity at version `version - 1`. Otherwise the result is none, or a cast error for a malformed identity. |
| Tickets.InsertBuilt | src/models/ticket.ts:69-76 | Building then inserting stores the supplied title and price under the supplied identity at version 0. A missing title or a negative price is rejected. |
| Tickets.StaleCopyRejected | src/models/ticket.ts:52-60 | Of two writers saving the same ticket version, only the first succeeds. |
| Tickets.ReservedIffNotCanceled | src/models/ticket.ts:85-107 | A ticket is reserved exactly when some order referencing it is neither CanceledByUser nor CanceledExpired. A ticket whose orders are all canceled, or which no order references, is therefore free. |
| Events.StatusCode | src/routes/__test__/delete.test.ts:38-44 | Every response has a 2xx or 4xx code. The code is 400 exactly for a bad request or an error the handler did not catch. Created, Ok, No Content, Not Found and Not Authorized answer 201, 200, 204, 404 and 401, each exactly. |
| Store.Service.InsertTicket | src/models/ticket.ts:22-32 | Performs `Tickets.Insert` on the service and records the write. A refusal changes nothing. |
| Store.Service.SaveTicket | src/models/ticket.ts:52-60 | Performs `Tickets.Save` on the service and records the write. A refusal changes nothing. |
| Store.Service.InsertOrder | orders/src/models/order.ts:28-37 | Performs `Orders.Insert` on the service and records the write. A refusal changes nothing. |
| Store.Service.SaveOrder | orders/src/models/order.ts:59-61 | Performs `Orders.Save` on the service and records the write. A refusal changes nothing. |
| Store.Service.Publish | orders/src/events/listeners/expiration-complete-listener.ts:43-56 | Appends exactly one message to the outbox and records the publish. Both collections are unchanged. |
| Store.Service.Ack | src/events/listeners/ticket-created-listener.ts:30 | Records one acknowledgement and changes no state. |
| Listeners.TicketCreated | src/events/listeners/ticket-created-listener.ts:20-31 | Acknowledged exactly when the insert is accepted. The ticket then exists with the event's id, title and price at version 0, whatever the event's version. The write comes first, then exactly one ack. On refusal there is no ack and nothing changes. Orders and the outbox are never touched. |
| Listeners.TicketUpdated | src/events/listeners/ticket-updated-listener.ts:16-29 | Acknowledged exactly when the ticket is stored at the version just below the event's and the new title and price are valid. A missing predecessor gives no ack with a not-found error and changes nothing. On success the title, price and version come from the event, and the stored version becomes the event's (the old one plus one). Other tickets and all orders are unchanged. |
| Listeners.PaymentCreated | orders/src/events/listeners/payment-created-listener.ts:17-30 | A malformed order id gives no ack with a cast error, a missing order no ack with a not-found error, and a stored order that fails its schema no ack with a validation error; none of these changes anything. A found, well-formed order becomes Complete whatever its status, canceled included. Its version rises by one, and a single ack follows the write. Nothing is published and tickets are unchanged. |
| Listeners.CanceledMessage | orders/src/events/listeners/expiration-complete-listener.ts:43-56 | The order:canceled payload: the order's id, its post-save version, its user, status CanceledExpired, its expiry, and the id, title, price and version of the ticket loaded with it. |
| Listeners.ExpireOrder | orders/src/events/listeners/expiration-complete-listener.ts:37-58 | The order becomes CanceledExpired with its version raised by one. Exactly one order:canceled message is appended. It carries the order id, the post-save version, the user, the status, the expiry and the ticket's id, title, price and version. Effects come in the order save, publish, ack. With the ticket missing, the save commits and the handler then fails with no publish and no ack. |
| Listeners.ExpirationComplete | orders/src/events/listeners/expiration-complete-listener.ts:25-58 | A missing order gives no ack with a not-found error, nothing published and nothing changed. A Complete order is acknowledged once with nothing changed. Any other order is expired as `ExpireOrder` states. |
| Listeners.LegacyExpirationComplete | src/events/listeners/expiration-complete-listener.ts:19-50 | A missing order gives no ack with a not-found error, and nothing is published. Every order found is expired, Complete ones included. |
| Listeners.OnTicketCreated | src/events/listeners/ticket-created-listener.ts:20-31 | On the service: the new state, outcome and effect trace are exactly those of `TicketCreated`. |
| Listeners.OnTicketUpdated | src/events/listeners/ticket-updated-listener.ts:16-29 | On the service: the new state, outcome and effect trace are exactly those of `TicketUpdated`. |
| Listeners.OnPaymentCreated | orders/src/events/listeners/payment-created-listener.ts:17-30 | On the service: the new state, outcome and effect trace are exactly those of `PaymentCreated`. |
| Listeners.Expire | orders/src/events/listeners/expiration-complete-listener.ts:37-58 | On the service: the new state, outcome and effect trace are exactly those of `ExpireOrder`. |
| Listeners.OnExpirationComplete | orders/src/events/listeners/expiration-complete-listener.ts:20-59 | On the service: the new state, outcome and effect trace are exactly those of `ExpirationComplete`. |
| Listeners.OnLegacyExpirationComplete | src/events/listeners/expiration-complete-listener.ts:19-50 | On the service: the new state, outcome and effect trace are exactly those of `LegacyExpirationComplete`. |
| Routes.NewOrder | src/routes/new.ts:19-77 | The response is 401 without a session. It is 400 for a missing or malformed ticket id, 404 for an unknown ticket and 400 for a reserved ticket. Created happens exactly when none of these apply and the insert is accepted. Then exactly one new order exists: the current user's, status Created, for the requested ticket, expiring at `now + 900`, at version 0. Otherwise no order is stored. Tickets and the outbox are never changed. |
| Routes.DeleteOrder | src/routes/delete.ts:14-50 | 401 exactly without a session. 204 exactly when the requester owns a well-formed stored order. The order then becomes CanceledByUser whatever its status, and its version rises by one. Every other failure is a 400 that changes nothing. Other orders, tickets and the outbox are unchanged. |
| Routes.ShowOrder | src/routes/show.ts:11-25 | A malformed id is an uncaught cast error. 404 happens exactly when the id is well-formed and no order has it, so it is checked before ownership. 401 happens exactly when the order belongs to another signed-in user. 200 happens exactly for its owner, and returns the stored order unchanged, version included. A found order requested without a session is an uncaught type error. |
| Routes.MalformedOrderIdIsBadRequest | src/routes/delete.ts:20-49 | A malformed order id is answered with 400 by the show route (an uncaught cast error) and, for a signed-in user, by the cancel route (the rewrapped failure). |
| Routes.HandleNewOrder | src/routes/new.ts:38-77 | On the service: the new state, response and effect trace are exactly those of `NewOrder`. |
| Routes.HandleDeleteOrder | src/routes/delete.ts:17-50 | On the service: the new state, response and effect trace are exactly those of `DeleteOrder`. |
| Invariants.TicketCreatedPreservesInv | src/events/listeners/ticket-created-listener.ts:20-31 | ticket:created keeps the store consistent and reservations exclusive. |
| Invariants.TicketUpdatedPreservesInv | src/events/listeners/ticket-updated-listener.ts:16-29 | ticket:updated keeps the store consistent and reservations exclusive. |
| Invariants.PaymentCreatedPreservesConsistent | orders/src/events/listeners/payment-created-listener.ts:17-30 | payment:created keeps every stored document valid, and every order still references a stored ticket. |
| Invariants.PaymentOnReservingOrderPreservesInv | orders/src/events/listeners/payment-created-listener.ts:24-27 | Paying for an order that still holds its ticket keeps reservations exclusive. |
| Invariants.PaymentCanDoubleReserve | orders/src/events/listeners/payment-created-listener.ts:24-27 | Paying for a canceled order whose ticket another order has reserved since is accepted, and the ticket then has two reserving orders. |
| Invariants.ReservedAgainDoubleReserves | orders/src/events/listeners/payment-created-listener.ts:24-27 | There is a consistent, exclusively reserved store in which such a payment breaks exclusivity. |
| Invariants.ConsistentExpirationAcknowledges | orders/src/events/listeners/expiration-complete-listener.ts:25-58 | In a consistent store, both expiration listeners acknowledge every order they find. The failure after a committed save cannot happen. |
| Invariants.ExpirationCompletePreservesInv | orders/src/events/listeners/expiration-complete-listener.ts:25-58 | The current expiration listener keeps the store consistent and reservations exclusive. |
| Invariants.LegacyExpirationCompletePreservesInv | src/events/listeners/expiration-complete-listener.ts:22-49 | The older expiration listener keeps the store consistent and reservations exclusive. |
| Invariants.NewOrderPreservesInv | src/routes/new.ts:49-74 | Placing an order keeps reservations exclusive, because the reservation check precedes the insert. |
| Invariants.NewOrderReservesTicket | src/routes/new.ts:66-74 | After an order is placed its ticket is reserved. |
| Invariants.DeleteOrderPreservesInv | src/routes/delete.ts:38-45 | Canceling an order keeps the store consistent and reservations exclusive. |
| Invariants.DeleteOrderReleasesTicket | src/routes/delete.ts:39-40 | After a cancellation the ticket is reserved exactly when another reserving order references it. With exclusive reservations, the ticket of a canceled reserving order is free again. |
| Delivery.DeliverTicketUpdates | src/events/listeners/ticket-updated-listener.ts:16-29 | Over any sequence of ticket:updated deliveries, ticket versions never decrease. No ticket appears or disappears, and orders and the outbox are untouched. |
| Delivery.UpdateStep | src/events/listeners/ticket-updated-listener.ts:17-26 | One ticket:updated delivery raises a ticket's version by one exactly when it was for that ticket and acknowledged, and an acknowledged delivery carried the version just above the stored one. |
| Delivery.AppliedUpdatesAreConsecutive | src/models/ticket.ts:52-67 | In any delivery order, the updates that get applied to a ticket carry consecutive versions starting just above the stored one. The final version is the initial one plus the number applied, so no update is applied twice and none is skipped. |
| Delivery.InOrderDeliveryAppliesAll | src/events/listeners/ticket-updated-listener.ts:17-28 | Updates delivered in version order are all acknowledged. The ticket ends with the last one's title, price and version. |
| Delivery.ReplayedUpdateIsNoOp | src/events/listeners/ticket-updated-listener.ts:17-21 | Delivering an applied update again is refused with a not-found error and changes nothing. |
| Delivery.RedeliveryConverges | src/events/listeners/ticket-updated-listener.ts:17-28 | An update that arrives before its predecessor is refused. Redelivered after the predecessor, it is applied, and the store ends as if both had arrived in order. |
| Delivery.DuplicateTicketCreatedIsRefused | src/events/listeners/ticket-created-listener.ts:23-30 | A ticket:created message delivered twice is refused the second time and changes nothing. |
| Delivery.DeliverOrderEvents | orders/src/events/listeners/payment-created-listener.ts:17-30 | Over any sequence of payment and expiration deliveries, no order appears or disappears. Tickets are unchanged and the outbox only grows. |
| Delivery.CompleteIsFinal | orders/src/events/listeners/expiration-complete-listener.ts:31-35 | Under the current listeners a Complete order stays Complete through any sequence of payment and expiration messages. No cancellation of it is ever published. |
| Delivery.LegacyExpirationCancelsComplete | src/events/listeners/expiration-complete-listener.ts:28-47 | The older listener cancels a Complete order and announces the cancellation. The current listener acknowledges the same message and changes nothing. |
| Delivery.ExpirationRecancelsCanceled | orders/src/events/listeners/expiration-complete-listener.ts:33-43 | An order already canceled is marked CanceledExpired again, with its version raised by one. A second cancellation is published, and both listeners behave alike here. |

## Left out

- Publishing from the routes. The order-placing and canceling routes publish nothing: only comments stand where the order:created and order:canceled publishes would go (src/routes/new.ts:76, src/routes/delete.ts:42). The model follows that code. The route tests expect those publishes (src/routes/__test__/delete.test.ts:63,77, orders/src/routes/__test__/new.test.ts:83).
- Distinct 404 and 401 answers from the cancel route. The route catches every failure inside it and answers 400 (src/routes/delete.ts:46-49), so a missing order and another user's order both answer 400. The model follows the code.
- A 401 from the show route without a session. The route demands no session (src/routes/show.ts:11). Without one, a found order's ownership check reads a missing user. The model answers that with an uncaught error (code 400), not 401.
- The GET /api/orders list route: its handler is not part of this model.
- The database and transport machinery are modelled as maps and a sequence: queries, `populate`, the `$where` plumbing, NATS queue groups, redelivery timing and acknowledgement timeouts. A refused save is an error value. An unacknowledged message is a `NoAck` outcome, and its redelivery is a later call in a delivery sequence.
- Concurrency. Every handler is one atomic step. The race between the reservation check and the insert of POST /api/orders is not modelled. Neither is a crash between a save and the publish that follows it.
- The ticket's `userId` in the order:canceled payload: the local ticket does not store one. Dates are whole seconds, and `expiresAt` is published as that number instead of a date string.
- Tickets.Build: the identity is taken as given. When the source's optional id is absent the store generates one, and that case is not modelled.
- Routes.NewOrder: the identity of the new order is a parameter, not generated by the store.
- Orders.WellFormed: the reference from an order to its ticket is not checked by the schema, and the model does not check it on insert either. `Store.Consistent` states it as an invariant instead.
- Common.FindById: identities are compared as strings and assumed to be in canonical form, lowercase 24-digit hexadecimal. The store compares the cast ObjectId instead. There, hexadecimal case does not matter, and a 12-character id is the same ObjectId as its 24-digit encoding. Published ids are the canonical form. Because of this, two spellings of one ObjectId are two identities in the model. That affects every map keyed by `Id` and the members that look up or store through it: Common.FindById, Tickets.Insert, Tickets.Save, Tickets.FindByIdAndPreviousVersion, Orders.Insert, Orders.Save, Listeners.TicketCreated, Listeners.TicketUpdated, Listeners.PaymentCreated, Listeners.ExpirationComplete, Listeners.LegacyExpirationComplete, Listeners.CanceledMessage, Routes.NewOrder, Routes.DeleteOrder and Routes.ShowOrder. For example, an insert under the upper-case spelling of a stored id is accepted in the model, while the store refuses it as a duplicate key.
- Store.Service.Publish: a publish always succeeds. In the source the awaited publish rejects on a transport error (orders/src/events/listeners/expiration-complete-listener.ts:43, src/events/listeners/expiration-complete-listener.ts:34). The order is then saved as CanceledExpired, nothing is published and the message is not acknowledged. Listeners.ExpireOrder, Listeners.ExpirationComplete and Listeners.LegacyExpirationComplete therefore do not model that outcome.
- The session, authentication middleware, request validation middleware, logging and the error handler's response bodies.

## Findings

| source | as written | input that shows it | evidently intended | confidence | as-written member | corrected member |
|---|---|---|---|---|---|---|
| src/events/listeners/expiration-complete-listener.ts:22-49 | every order the expiration event names is canceled, even one already paid for | an order that payment:created has made Complete, followed by expiration:complete for it | a paid order is left alone and the message acknowledged, as the current listener does (orders/src/events/listeners/expiration-complete-listener.ts:31-35) | high; not executed | Listeners.LegacyExpirationComplete, Delivery.LegacyExpirationCancelsComplete | Listeners.ExpirationComplete, Delivery.CompleteIsFinal |
