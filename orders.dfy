/** The Order model: the record, its schema, how a new document is built,
    and the two ways a document reaches the store (insert of a new document,
    version-checked update of an existing one). */
module Orders {
  import opened Common

  /** A stored order. `ticketId` references a ticket by identity;
      `expiresAt` is in whole seconds. */
  datatype Order = Order(
    userId: UserId,
    status: OrderStatus,
    expiresAt: int,
    ticketId: Id,
    version: nat)

  /** What a caller supplies to build an order; a missing status takes the
      schema default. */
  datatype OrderAttrs = OrderAttrs(
    userId: UserId,
    status: Option<OrderStatus>,
    expiresAt: int,
    ticketId: Id)

  /** An order document in memory, with the identity it is (or will be)
      stored under. */
  datatype OrderDoc = OrderDoc(id: Id, order: Order)

  /** The schema's demands on an order: the user id is required (an empty
      string counts as missing). The status is always an enumeration value
      by construction. */
  predicate WellFormed(o: Order)
  {
    o.userId != ""
  }

  /** Builds a new, unsaved document under the identity the store generated
      for it. */
  function Build(id: Id, attrs: OrderAttrs): (doc: OrderDoc)
    ensures doc.id == id && doc.order.version == 0
  {
    var status := match attrs.status
      case Some(s) => s
      case None => Created;
    OrderDoc(id, Order(attrs.userId, status, attrs.expiresAt, attrs.ticketId, 0))
  }

  /** Saving a new document: validated, stored at version 0, refused when
      its identity is malformed or already taken. */
  function Insert(orders: map<Id, Order>, doc: OrderDoc): (r: Result<map<Id, Order>, Error>)
    ensures r.Success? <==> ValidObjectId(doc.id) && WellFormed(doc.order) && doc.id !in orders
    ensures r.Success? ==> r.value.Keys == orders.Keys + {doc.id}
    ensures r.Success? ==> r.value[doc.id] == doc.order.(version := 0)
    ensures r.Success? ==> forall id :: id in orders ==> r.value[id] == orders[id]
  {
    if !ValidObjectId(doc.id) then Failure(CastError)
    else if !WellFormed(doc.order) then Failure(ValidationError)
    else if doc.id in orders then Failure(DuplicateKeyError)
    else Success(orders[doc.id := doc.order.(version := 0)])
  }

  /** Saving an existing document under optimistic concurrency: the update
      applies only where the stored version equals the version the document
      was read at, and it raises the version by one. */
  function Save(orders: map<Id, Order>, doc: OrderDoc): (r: Result<map<Id, Order>, Error>)
    ensures r.Success? <==> WellFormed(doc.order) && doc.id in orders && orders[doc.id].version == doc.order.version
    ensures !WellFormed(doc.order) ==> r == Failure(ValidationError)
    ensures WellFormed(doc.order) && r.Failure? ==> r.error == VersionError
    ensures r.Success? ==> r.value.Keys == orders.Keys
    ensures r.Success? ==> r.value[doc.id].version == orders[doc.id].version + 1
    ensures r.Success? ==> r.value[doc.id] == doc.order.(version := doc.order.version + 1)
    ensures r.Success? ==> forall id :: id in orders && id != doc.id ==> r.value[id] == orders[id]
  {
    if !WellFormed(doc.order) then Failure(ValidationError)
    else if doc.id !in orders || orders[doc.id].version != doc.order.version then Failure(VersionError)
    else Success(orders[doc.id := doc.order.(version := doc.order.version + 1)])
  }

  /** Building and inserting a new order stores exactly the given user,
      status (Created when none is given), expiry and ticket, at version 0;
      an order without a user id is not stored. */
  lemma InsertBuilt(orders: map<Id, Order>, id: Id, attrs: OrderAttrs)
    ensures var r := Insert(orders, Build(id, attrs));
      && (r.Success? <==> ValidObjectId(id) && attrs.userId != "" && id !in orders)
      && (r.Success? ==> r.value[id] == Order(attrs.userId,
                                        if attrs.status.Some? then attrs.status.value else Created,
                                        attrs.expiresAt, attrs.ticketId, 0))
  {
  }

  /** Of two writers that read the same version of an order, only the first
      to save succeeds: the second save is rejected. */
  lemma StaleCopyRejected(orders: map<Id, Order>, first: OrderDoc, second: OrderDoc)
    requires Save(orders, first).Success?
    requires second.id == first.id && second.order.version == first.order.version
    ensures Save(Save(orders, first).value, second).Failure?
  {
  }
}
