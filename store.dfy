/** The service's state: the two collections of its database and the
    transport's outbox, as a value (`State`) and as the object the handlers
    change in place (`Service`), together with the invariants the handlers
    are proved against. */
module Store {
  import opened Common
  import opened Events
  import Orders
  import Tickets

  /** The ticket collection, the order collection, and the messages handed
      to the transport so far. */
  datatype State = State(
    tickets: map<Id, Tickets.Ticket>,
    orders: map<Id, Orders.Order>,
    outbox: seq<Publication>)

  /** What one handler invocation does: the state after it, how it ends, and
      its observable effects in order. */
  datatype Step<R> = Step(post: State, result: R, effects: seq<Effect>)

  /** Every stored document satisfies its schema under a well-formed
      identity, and every order references a stored ticket. */
  ghost predicate Consistent(s: State)
  {
    && (forall id :: id in s.tickets ==> ValidObjectId(id) && Tickets.WellFormed(s.tickets[id]))
    && (forall id :: id in s.orders ==>
          ValidObjectId(id) && Orders.WellFormed(s.orders[id]) && s.orders[id].ticketId in s.tickets)
  }

  /** The goal of the reservation rule: no two orders hold the same ticket. */
  ghost predicate ExclusiveReservations(orders: map<Id, Orders.Order>)
  {
    forall a, b :: a in orders && b in orders && a != b && orders[a].ticketId == orders[b].ticketId
      ==> !(Reserving(orders[a].status) && Reserving(orders[b].status))
  }

  ghost predicate Inv(s: State)
  {
    Consistent(s) && ExclusiveReservations(s.orders)
  }

  /** The database and the transport as the handlers see them. `effects`
      records, in order, every committed write, every publish and every
      acknowledgement. */
  class Service {
    var tickets: map<Id, Tickets.Ticket>
    var orders: map<Id, Orders.Order>
    var outbox: seq<Publication>
    ghost var effects: seq<Effect>

    function Snapshot(): State
      reads this
    {
      State(tickets, orders, outbox)
    }

    constructor ()
      ensures Snapshot() == State(map[], map[], []) && effects == []
    {
      tickets, orders, outbox := map[], map[], [];
      effects := [];
    }

    /** Inserts a new ticket document; on refusal nothing changes. */
    method InsertTicket(doc: Tickets.TicketDoc) returns (err: Option<Error>)
      modifies this
      ensures var r := Tickets.Insert(old(tickets), doc);
        && (r.Success? ==> err.None? && tickets == r.value
                           && effects == old(effects) + [Wrote(TicketsCollection, doc.id)])
        && (r.Failure? ==> err == Some(r.error) && tickets == old(tickets) && effects == old(effects))
      ensures orders == old(orders) && outbox == old(outbox)
    {
      var r := Tickets.Insert(tickets, doc);
      if r.Success? {
        tickets := r.value;
        effects := effects + [Wrote(TicketsCollection, doc.id)];
        err := None;
      } else {
        err := Some(r.error);
      }
    }

    /** Saves an existing ticket document through the version gate; on
      refusal nothing changes. */
    method SaveTicket(doc: Tickets.TicketDoc) returns (err: Option<Error>)
      modifies this
      ensures var r := Tickets.Save(old(tickets), doc);
        && (r.Success? ==> err.None? && tickets == r.value
                           && effects == old(effects) + [Wrote(TicketsCollection, doc.id)])
        && (r.Failure? ==> err == Some(r.error) && tickets == old(tickets) && effects == old(effects))
      ensures orders == old(orders) && outbox == old(outbox)
    {
      var r := Tickets.Save(tickets, doc);
      if r.Success? {
        tickets := r.value;
        effects := effects + [Wrote(TicketsCollection, doc.id)];
        err := None;
      } else {
        err := Some(r.error);
      }
    }

    /** Inserts a new order document; on refusal nothing changes. */
    method InsertOrder(doc: Orders.OrderDoc) returns (err: Option<Error>)
      modifies this
      ensures var r := Orders.Insert(old(orders), doc);
        && (r.Success? ==> err.None? && orders == r.value
                           && effects == old(effects) + [Wrote(OrdersCollection, doc.id)])
        && (r.Failure? ==> err == Some(r.error) && orders == old(orders) && effects == old(effects))
      ensures tickets == old(tickets) && outbox == old(outbox)
    {
      var r := Orders.Insert(orders, doc);
      if r.Success? {
        orders := r.value;
        effects := effects + [Wrote(OrdersCollection, doc.id)];
        err := None;
      } else {
        err := Some(r.error);
      }
    }

    /** Saves an existing order document under optimistic concurrency; on
      refusal nothing changes. */
    method SaveOrder(doc: Orders.OrderDoc) returns (err: Option<Error>)
      modifies this
      ensures var r := Orders.Save(old(orders), doc);
        && (r.Success? ==> err.None? && orders == r.value
                           && effects == old(effects) + [Wrote(OrdersCollection, doc.id)])
        && (r.Failure? ==> err == Some(r.error) && orders == old(orders) && effects == old(effects))
      ensures tickets == old(tickets) && outbox == old(outbox)
    {
      var r := Orders.Save(orders, doc);
      if r.Success? {
        orders := r.value;
        effects := effects + [Wrote(OrdersCollection, doc.id)];
        err := None;
      } else {
        err := Some(r.error);
      }
    }

    /** Hands one message to the transport. */
    method Publish(p: Publication)
      modifies this
      ensures outbox == old(outbox) + [p]
      ensures effects == old(effects) + [Published(p.topic, p.data.id)]
      ensures tickets == old(tickets) && orders == old(orders)
    {
      outbox := outbox + [p];
      effects := effects + [Published(p.topic, p.data.id)];
    }

    /** Acknowledges the inbound message being handled. */
    method Ack()
      modifies this
      ensures effects == old(effects) + [Acked]
      ensures Snapshot() == old(Snapshot())
    {
      effects := effects + [Acked];
    }
  }
}
