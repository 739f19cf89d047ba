/** The service's database and the handlers that change it, one method per
    route. Each handler performs the route's reads and guarded writes in
    order, and its postcondition ties the new tables and the answer to the
    specification functions of Reconciliation and Accounts. The bearer
    token's verification is outside the model: `BecomeSeller`'s email and
    `UpdateRole`'s `caller` stand for verified token emails, while
    `SaveUser`'s email and `UpdateRole`'s target email come from the
    unauthenticated request body, and `PaymentSuccess` is unauthenticated. */
module Server {
  import opened Records
  import opened Reconciliation
  import opened Accounts

  class Database {
    var orders: map<OrderId, Order>
    var tickets: map<TicketId, Ticket>
    var users: map<Email, User>
    var sellerRequests: seq<Email>

    /** Users sit under their own emails and no email has two seller requests. */
    ghost predicate Valid()
      reads this
    {
      KeyedByEmail(users) && NoDuplicates(sellerRequests)
    }

    /** A database holding the given collections. */
    constructor (orders: map<OrderId, Order>, tickets: map<TicketId, Ticket>, users: map<Email, User>, sellerRequests: seq<Email>)
      requires KeyedByEmail(users) && NoDuplicates(sellerRequests)
      ensures Valid()
      ensures this.orders == orders && this.tickets == tickets
      ensures this.users == users && this.sellerRequests == sellerRequests
    {
      this.orders := orders;
      this.tickets := tickets;
      this.users := users;
      this.sellerRequests := sellerRequests;
    }

    /** `POST /payment-success` for the retrieved session `session`; `newId`
        is the id the store allocates if an order is inserted. */
    method PaymentSuccess(session: Session, newId: OrderId) returns (r: PaymentResult)
      requires Valid() && newId !in orders
      modifies this
      ensures Valid()
      ensures Reconciled(orders, tickets, r) == Reconcile(old(orders), old(tickets), session, newId)
      ensures users == old(users) && sellerRequests == old(sellerRequests)
    {
      var meta := session.metadata;
      if Truthy(meta.orderId) {
        var id := meta.orderId.value;
        if session.status == COMPLETE && id in orders {
          var order := orders[id];
          orders := orders[id := order.(status := PAID, transactionId := session.paymentIntent)];
          if order.ticketId in tickets {
            var ticket := tickets[order.ticketId];
            tickets := tickets[order.ticketId := ticket.(quantity := ticket.quantity - order.quantity)];
          }
          return PaymentResult(session.paymentIntent, meta.orderId);
        }
      }
      if Truthy(meta.ticketId) {
        var id := meta.ticketId.value;
        var ticketFound := id in tickets;
        var orderFound := exists k | k in orders :: orders[k].transactionId == session.paymentIntent;
        if session.status == COMPLETE && ticketFound && !orderFound {
          var ticket := tickets[id];
          orders := orders[newId := NewOrder(session, ticket)];
          tickets := tickets[id := ticket.(quantity := ticket.quantity - 1)];
          return PaymentResult(session.paymentIntent, Some(newId));
        }
      }
      r := PaymentResult(session.paymentIntent, None);
    }

    /** `POST /user` for the body with email `email` and other fields `fields`. */
    method SaveUser(email: Email, fields: map<string, string>, now: string) returns (inserted: bool)
      requires Valid()
      modifies this
      ensures Valid()
      ensures Saved(users, inserted) == UpsertUser(old(users), email, fields, now)
      ensures orders == old(orders) && tickets == old(tickets) && sellerRequests == old(sellerRequests)
    {
      if email in users {
        users := users[email := users[email].(lastLoggedIn := now)];
        return false;
      }
      users := users[email := User(email, fields, now, now, CUSTOMER)];
      inserted := true;
    }

    /** `POST /become-seller` by the verified user `email`. */
    method BecomeSeller(email: Email) returns (answer: Request)
      requires Valid()
      modifies this
      ensures Valid()
      ensures Requests(sellerRequests, answer) == RequestSeller(old(sellerRequests), email)
      ensures orders == old(orders) && tickets == old(tickets) && users == old(users)
    {
      if email in sellerRequests {
        return AlreadyRequested;
      }
      sellerRequests := sellerRequests + [email];
      answer := Requested;
    }

    /** `PATCH /update-role` by the verified user `caller`, for the user
        `email` and the new role `role`. */
    method UpdateRole(caller: Email, email: Email, role: string) returns (gate: Gate)
      requires Valid()
      modifies this
      ensures Valid()
      ensures RoleUpdate(users, sellerRequests, gate) == Accounts.UpdateRole(old(users), old(sellerRequests), caller, email, role)
      ensures gate == Pass ==> email !in sellerRequests
      ensures orders == old(orders) && tickets == old(tickets)
    {
      gate := VerifyAdmin(users, caller);
      if gate.Forbidden? {
        return;
      }
      if email in users {
        users := users[email := users[email].(role := role)];
      }
      RemoveFirstClears(sellerRequests, email);
      sellerRequests := RemoveFirst(sellerRequests, email);
    }
  }
}
