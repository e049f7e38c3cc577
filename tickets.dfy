/** The Ticket model: the local projection of tickets owned by the catalog
    service, its schema, its version-gated save, the lookup at a previous
    version, and the reservation rule that reads the orders. */
module Tickets {
  import opened Common
  import Orders

  /** A stored ticket. The price is a number that the schema keeps at or
      above zero. */
  datatype Ticket = Ticket(title: string, price: real, version: nat)

  /** What a caller supplies to build a ticket: the identity assigned by the
      catalog service, a title and a price. */
  datatype TicketAttrs = TicketAttrs(id: Id, title: string, price: real)

  /** A ticket document in memory with the identity it is stored under. */
  datatype TicketDoc = TicketDoc(id: Id, ticket: Ticket)

  /** The schema: a title is required (an empty string counts as missing)
      and the price may not be negative. */
  predicate WellFormed(t: Ticket)
  {
    t.title != "" && t.price >= 0.0
  }

  /** Builds a new, unsaved document whose identity is the supplied one. */
  function Build(attrs: TicketAttrs): (doc: TicketDoc)
    ensures doc.id == attrs.id && doc.ticket.version == 0
  {
    TicketDoc(attrs.id, Ticket(attrs.title, attrs.price, 0))
  }

  /** Saving a new document: an insert, which the version gate does not
      apply to; validated, stored at version 0, refused when the identity is
      malformed or already taken. */
  function Insert(tickets: map<Id, Ticket>, doc: TicketDoc): (r: Result<map<Id, Ticket>, Error>)
    ensures r.Success? <==> ValidObjectId(doc.id) && WellFormed(doc.ticket) && doc.id !in tickets
    ensures r.Success? ==> r.value.Keys == tickets.Keys + {doc.id}
    ensures r.Success? ==> r.value[doc.id] == doc.ticket.(version := 0)
    ensures r.Success? ==> forall id :: id in tickets ==> r.value[id] == tickets[id]
  {
    if !ValidObjectId(doc.id) then Failure(CastError)
    else if !WellFormed(doc.ticket) then Failure(ValidationError)
    else if doc.id in tickets then Failure(DuplicateKeyError)
    else Success(tickets[doc.id := doc.ticket.(version := 0)])
  }

  /** Saving an existing document: the pre-save hook restricts the update to
      the stored document whose version is one less than the document's own,
      so an accepted save raises the stored version by exactly one and any
      other save leaves the store as it was. */
  function Save(tickets: map<Id, Ticket>, doc: TicketDoc): (r: Result<map<Id, Ticket>, Error>)
    ensures r.Success? <==> WellFormed(doc.ticket) && doc.id in tickets && tickets[doc.id].version == doc.ticket.version - 1
    ensures !WellFormed(doc.ticket) ==> r == Failure(ValidationError)
    ensures WellFormed(doc.ticket) && r.Failure? ==> r.error == VersionError
    ensures r.Success? ==> r.value.Keys == tickets.Keys
    ensures r.Success? ==> r.value[doc.id].version == tickets[doc.id].version + 1
    ensures r.Success? ==> r.value[doc.id] == doc.ticket
    ensures r.Success? ==> forall id :: id in tickets && id != doc.id ==> r.value[id] == tickets[id]
  {
    if !WellFormed(doc.ticket) then Failure(ValidationError)
    else if doc.id !in tickets || tickets[doc.id].version != doc.ticket.version - 1 then Failure(VersionError)
    else Success(tickets[doc.id := doc.ticket])
  }

  /** The ticket stored under `id` whose version is `version - 1`, if any. */
  function FindByIdAndPreviousVersion(tickets: map<Id, Ticket>, id: Id, version: int): (r: Result<Option<Ticket>, Error>)
    ensures r.Failure? <==> !ValidObjectId(id)
    ensures r.Success? ==> (r.value.Some? <==> id in tickets && tickets[id].version == version - 1)
    ensures r.Success? && r.value.Some? ==> r.value.value == tickets[id] && version >= 1
  {
    match FindById(tickets, id)
    case Failure(e) => Failure(e)
    case Success(found) =>
      if found.Some? && found.value.version == version - 1 then Success(found) else Success(None)
  }

  /** The reservation rule: a ticket is reserved when some order that
      references it is Created, AwaitingPayment or Complete. */
  predicate IsReserved(orders: map<Id, Orders.Order>, ticketId: Id)
  {
    exists id :: id in orders && orders[id].ticketId == ticketId && Reserving(orders[id].status)
  }

  /** Building and inserting a new ticket stores the supplied title and
      price under the supplied identity, at version 0; a missing title or a
      negative price is rejected. */
  lemma InsertBuilt(tickets: map<Id, Ticket>, attrs: TicketAttrs)
    ensures var r := Insert(tickets, Build(attrs));
      && (r.Success? <==> ValidObjectId(attrs.id) && attrs.title != "" && attrs.price >= 0.0 && attrs.id !in tickets)
      && (r.Success? ==> r.value[attrs.id] == Ticket(attrs.title, attrs.price, 0))
  {
  }

  /** Of two writers that read the same version of a ticket, only the first
      to save succeeds. */
  lemma StaleCopyRejected(tickets: map<Id, Ticket>, first: TicketDoc, second: TicketDoc)
    requires Save(tickets, first).Success?
    requires second.id == first.id && second.ticket.version == first.ticket.version
    ensures Save(Save(tickets, first).value, second).Failure?
  {
  }

  /** The reservation rule read the other way round: a ticket is reserved
      exactly when some order that references it is not canceled. So an
      order in a reserving status reserves its ticket, and a ticket whose
      orders are all canceled, or which no order references, is free. */
  lemma ReservedIffNotCanceled(orders: map<Id, Orders.Order>, ticketId: Id)
    ensures IsReserved(orders, ticketId) <==>
      exists id :: id in orders && orders[id].ticketId == ticketId
        && orders[id].status != CanceledByUser && orders[id].status != CanceledExpired
  {
  }
}
