/** The payment-reconciliation handler `POST /payment-success` (index.js:139-216)
    as a function from the orders and tickets tables and the retrieved checkout
    session to the new tables and the answer. It is the code as written: the
    pre-created-order flow re-applies on every call and no decrement is
    guarded against going below zero. */
module Reconciliation {
  import opened Records

  const COMPLETE := "complete"
  const PAID := "paid"

  /** The two tables after one call, and the body of the answer. */
  datatype Reconciled = Reconciled(orders: map<OrderId, Order>, tickets: map<TicketId, Ticket>, result: PaymentResult)

  /** The answer when no order was paid or created: `{transactionId, orderId: null}`. */
  function NoOrder(s: Session): PaymentResult
  {
    PaymentResult(s.paymentIntent, None)
  }

  /** The guard of the pre-created-order flow: the metadata names an order,
      the session is complete and the order is found. */
  predicate OrderFlowApplies(orders: map<OrderId, Order>, s: Session)
  {
    Truthy(s.metadata.orderId) && s.status == COMPLETE && s.metadata.orderId.value in orders
  }

  /** `findOne({transactionId: txn})` finds something. */
  predicate HasTransaction(orders: map<OrderId, Order>, txn: Option<string>)
  {
    exists id :: id in orders && orders[id].transactionId == txn
  }

  /** The guard of the direct-purchase flow: the metadata names a ticket, the
      session is complete, the ticket is found and no order carries the
      session's payment intent yet. */
  predicate DirectFlowApplies(orders: map<OrderId, Order>, tickets: map<TicketId, Ticket>, s: Session)
  {
    && Truthy(s.metadata.ticketId)
    && s.status == COMPLETE
    && s.metadata.ticketId.value in tickets
    && !HasTransaction(orders, s.paymentIntent)
  }

  /** `$inc: {quantity: delta}` on a ticket that exists. */
  function AddQuantity(tickets: map<TicketId, Ticket>, id: TicketId, delta: int): map<TicketId, Ticket>
    requires id in tickets
  {
    tickets[id := tickets[id].(quantity := tickets[id].quantity + delta)]
  }

  /** The pre-created-order flow: the order becomes paid with the session's
      payment intent, and the ticket it refers to, if there is one, loses the
      order's quantity. Nothing checks the previous status or the stock. */
  function PayOrder(orders: map<OrderId, Order>, tickets: map<TicketId, Ticket>, s: Session): (r: Reconciled)
    requires OrderFlowApplies(orders, s)
    ensures r.result == PaymentResult(s.paymentIntent, s.metadata.orderId)
    ensures var id := s.metadata.orderId.value;
      && r.orders.Keys == orders.Keys
      && r.orders[id].status == PAID
      && r.orders[id].transactionId == s.paymentIntent
      && r.orders[id] == orders[id].(status := r.orders[id].status, transactionId := r.orders[id].transactionId)
      && (forall k :: k in orders && k != id ==> r.orders[k] == orders[k])
    ensures var order := orders[s.metadata.orderId.value]; var t := order.ticketId;
      && r.tickets.Keys == tickets.Keys
      && (t in tickets ==>
            && r.tickets[t].quantity == tickets[t].quantity - order.quantity
            && r.tickets[t] == tickets[t].(quantity := r.tickets[t].quantity))
      && (t !in tickets ==> r.tickets == tickets)
      && (forall k :: k in tickets && k != t ==> r.tickets[k] == tickets[k])
  {
    var id := s.metadata.orderId.value;
    var order := orders[id];
    var paid := orders[id := order.(status := PAID, transactionId := s.paymentIntent)];
    var stock := if order.ticketId in tickets then AddQuantity(tickets, order.ticketId, -order.quantity) else tickets;
    Reconciled(paid, stock, PaymentResult(s.paymentIntent, Some(id)))
  }

  /** The order the direct-purchase flow inserts for ticket `t`. */
  function NewOrder(s: Session, t: Ticket): Order
    requires s.metadata.ticketId.Some?
  {
    Order(
      ticketId := s.metadata.ticketId.value,
      customer := s.metadata.customer,
      seller := t.seller,
      name := t.name,
      category := t.category,
      description := t.description,
      image := t.image,
      quantity := 1,
      price := s.amountTotal as real / 100.0,
      status := PAID,
      transactionId := s.paymentIntent)
  }

  /** The direct-purchase flow: one new paid order under the id the store
      allocates, and the ticket loses one unit. */
  function DirectPurchase(orders: map<OrderId, Order>, tickets: map<TicketId, Ticket>, s: Session, newId: OrderId): (r: Reconciled)
    requires DirectFlowApplies(orders, tickets, s) && newId !in orders
    ensures r.result == PaymentResult(s.paymentIntent, Some(newId))
    ensures r.orders.Keys == orders.Keys + {newId}
    ensures forall k :: k in orders ==> r.orders[k] == orders[k]
    ensures var o := r.orders[newId]; var t := tickets[s.metadata.ticketId.value];
      && o.status == PAID
      && o.quantity == 1
      && o.price * 100.0 == s.amountTotal as real
      && o.ticketId == s.metadata.ticketId.value
      && o.customer == s.metadata.customer
      && o.transactionId == s.paymentIntent
      && o.seller == t.seller && o.name == t.name && o.category == t.category
      && o.description == t.description && o.image == t.image
    ensures HasTransaction(r.orders, s.paymentIntent)
    ensures var id := s.metadata.ticketId.value;
      && r.tickets.Keys == tickets.Keys
      && r.tickets[id] == tickets[id].(quantity := tickets[id].quantity - 1)
      && (forall k :: k in tickets && k != id ==> r.tickets[k] == tickets[k])
  {
    var id := s.metadata.ticketId.value;
    var added := orders[newId := NewOrder(s, tickets[id])];
    assert added[newId].transactionId == s.paymentIntent;
    Reconciled(added, AddQuantity(tickets, id, -1), PaymentResult(s.paymentIntent, Some(newId)))
  }

  /** One call of the handler. `newId` is the id the store would give an
      inserted order. */
  function Reconcile(orders: map<OrderId, Order>, tickets: map<TicketId, Ticket>, s: Session, newId: OrderId): (r: Reconciled)
    requires newId !in orders
    ensures r.result.transactionId == s.paymentIntent
    ensures r.result.orderId == None ==> r.orders == orders && r.tickets == tickets
    ensures r.result.orderId == None <==> !OrderFlowApplies(orders, s) && !DirectFlowApplies(orders, tickets, s)
    ensures OrderFlowApplies(orders, s) ==> r.result.orderId == s.metadata.orderId
    ensures !OrderFlowApplies(orders, s) && DirectFlowApplies(orders, tickets, s) ==> r.result.orderId == Some(newId)
    ensures r.result.orderId.Some? ==>
      var id := r.result.orderId.value;
      id in r.orders && r.orders[id].status == PAID && r.orders[id].transactionId == s.paymentIntent
    ensures r.tickets.Keys == tickets.Keys
    ensures orders.Keys <= r.orders.Keys <= orders.Keys + {newId}
    ensures s.status != COMPLETE ==> r == Reconciled(orders, tickets, NoOrder(s))
    ensures !Truthy(s.metadata.orderId) && !Truthy(s.metadata.ticketId) ==> r == Reconciled(orders, tickets, NoOrder(s))
  {
    if OrderFlowApplies(orders, s) then PayOrder(orders, tickets, s)
    else if DirectFlowApplies(orders, tickets, s) then DirectPurchase(orders, tickets, s, newId)
    else Reconciled(orders, tickets, NoOrder(s))
  }

  /** The order flow is chosen whenever its guard holds, even when the
      metadata also names a ticket; when its guard fails the direct flow is
      tried next. */
  lemma OrderFlowTakesPrecedence(orders: map<OrderId, Order>, tickets: map<TicketId, Ticket>, s: Session, newId: OrderId)
    requires newId !in orders
    ensures OrderFlowApplies(orders, s) ==> Reconcile(orders, tickets, s, newId) == PayOrder(orders, tickets, s)
    ensures !OrderFlowApplies(orders, s) && DirectFlowApplies(orders, tickets, s) ==>
      Reconcile(orders, tickets, s, newId) == DirectPurchase(orders, tickets, s, newId)
  {
  }

  /** Calling the handler twice with the same completed session for a
      pre-created order: the second call writes the same paid state again,
      answers the same, and takes the order's quantity off the ticket a second
      time. */
  lemma OrderFlowTwice(orders: map<OrderId, Order>, tickets: map<TicketId, Ticket>, s: Session, a: OrderId, b: OrderId)
    requires a !in orders && b !in orders
    requires OrderFlowApplies(orders, s)
    ensures var first := Reconcile(orders, tickets, s, a);
      var second := Reconcile(first.orders, first.tickets, s, b);
      var order := orders[s.metadata.orderId.value];
      && second.orders == first.orders
      && second.result == first.result
      && (order.ticketId in tickets ==>
            second.tickets[order.ticketId].quantity == tickets[order.ticketId].quantity - 2 * order.quantity)
  {
    var first := Reconcile(orders, tickets, s, a);
    assert OrderFlowApplies(first.orders, s);
  }

  /** `ids` are distinct and none is an order id yet: the ids the store would
      allocate on successive inserts. */
  predicate FreshIds(orders: map<OrderId, Order>, ids: seq<OrderId>)
  {
    && (forall i :: 0 <= i < |ids| ==> ids[i] !in orders)
    && (forall i, j :: 0 <= i < j < |ids| ==> ids[i] != ids[j])
  }

  /** None of `ids` is the order id the session's metadata names: ids the
      store allocates are new, so they never equal an id it handed out before. */
  predicate AvoidsNamedOrder(s: Session, ids: seq<OrderId>)
  {
    Truthy(s.metadata.orderId) ==> s.metadata.orderId.value !in ids
  }

  /** `|ids|` successive calls of the handler with the same session; the
      answer is that of the last call. */
  function ReconcileAll(orders: map<OrderId, Order>, tickets: map<TicketId, Ticket>, s: Session, ids: seq<OrderId>): (r: Reconciled)
    requires |ids| > 0 && FreshIds(orders, ids)
    ensures r.result.transactionId == s.paymentIntent
    ensures r.tickets.Keys == tickets.Keys
    ensures orders.Keys <= r.orders.Keys
    ensures forall k :: k in r.orders ==> k in orders || k in ids
    decreases |ids|
  {
    var first := Reconcile(orders, tickets, s, ids[0]);
    if |ids| == 1 then first
    else
      assert FreshIds(first.orders, ids[1..]) by {
        forall i | 0 <= i < |ids| - 1 ensures ids[1..][i] !in first.orders {
          assert ids[0] != ids[i + 1];
        }
      }
      ReconcileAll(first.orders, first.tickets, s, ids[1..])
  }

  /** Retrying a completed pre-created-order session n times: the order ends
      paid exactly as after one call, every answer names it, and the ticket
      has lost n times the order's quantity. */
  lemma {:induction false} OrderFlowRetries(orders: map<OrderId, Order>, tickets: map<TicketId, Ticket>, s: Session, ids: seq<OrderId>)
    requires |ids| > 0 && FreshIds(orders, ids)
    requires OrderFlowApplies(orders, s)
    ensures var id := s.metadata.orderId.value;
      var order := orders[id];
      var t := order.ticketId;
      var r := ReconcileAll(orders, tickets, s, ids);
      && r.result == PaymentResult(s.paymentIntent, Some(id))
      && r.orders == orders[id := order.(status := PAID, transactionId := s.paymentIntent)]
      && (t in tickets ==> r.tickets == tickets[t := tickets[t].(quantity := tickets[t].quantity - |ids| * order.quantity)])
      && (t !in tickets ==> r.tickets == tickets)
    decreases |ids|
  {
    var id := s.metadata.orderId.value;
    var order := orders[id];
    var first := Reconcile(orders, tickets, s, ids[0]);
    if |ids| > 1 {
      assert FreshIds(first.orders, ids[1..]) by {
        forall i | 0 <= i < |ids| - 1 ensures ids[1..][i] !in first.orders {
          assert ids[0] != ids[i + 1];
        }
      }
      assert OrderFlowApplies(first.orders, s);
      assert first.orders[id] == order.(status := PAID, transactionId := s.paymentIntent);
      OrderFlowRetries(first.orders, first.tickets, s, ids[1..]);
      assert (|ids| - 1) * order.quantity + order.quantity == |ids| * order.quantity;
    }
  }

  /** Once an order carries the session's payment intent, further calls for a
      session whose order flow does not apply (it names no order, or one that
      is not stored) change nothing and answer `orderId: null`. */
  lemma {:induction false} SettledRetriesChangeNothing(orders: map<OrderId, Order>, tickets: map<TicketId, Ticket>, s: Session, ids: seq<OrderId>)
    requires |ids| > 0 && FreshIds(orders, ids)
    requires AvoidsNamedOrder(s, ids) && !OrderFlowApplies(orders, s)
    requires HasTransaction(orders, s.paymentIntent)
    ensures ReconcileAll(orders, tickets, s, ids) == Reconciled(orders, tickets, NoOrder(s))
    decreases |ids|
  {
    if |ids| > 1 {
      assert FreshIds(orders, ids[1..]) by {
        forall i | 0 <= i < |ids| - 1 ensures ids[1..][i] !in orders {
          assert ids[1..][i] == ids[i + 1];
        }
      }
      assert AvoidsNamedOrder(s, ids[1..]);
      SettledRetriesChangeNothing(orders, tickets, s, ids[1..]);
    }
  }

  /** Retrying a completed direct-purchase session n times (one that names
      no order, or an order that is not stored): exactly one order is inserted
      and the ticket loses exactly one unit; only the first call names the
      order, every later one answers `orderId: null`. */
  lemma DirectPurchaseRetries(orders: map<OrderId, Order>, tickets: map<TicketId, Ticket>, s: Session, ids: seq<OrderId>)
    requires |ids| > 0 && FreshIds(orders, ids)
    requires AvoidsNamedOrder(s, ids) && !OrderFlowApplies(orders, s)
    requires DirectFlowApplies(orders, tickets, s)
    ensures var once := DirectPurchase(orders, tickets, s, ids[0]);
      var r := ReconcileAll(orders, tickets, s, ids);
      && r.orders == once.orders
      && r.tickets == once.tickets
      && r.result == if |ids| == 1 then once.result else NoOrder(s)
  {
    var first := Reconcile(orders, tickets, s, ids[0]);
    if |ids| > 1 {
      assert FreshIds(first.orders, ids[1..]) by {
        forall i | 0 <= i < |ids| - 1 ensures ids[1..][i] !in first.orders {
          assert ids[0] != ids[i + 1];
        }
      }
      assert AvoidsNamedOrder(s, ids[1..]);
      assert !OrderFlowApplies(first.orders, s);
      SettledRetriesChangeNothing(first.orders, first.tickets, s, ids[1..]);
    }
  }

  /** No two orders carry the same (present) transaction id. */
  predicate UniqueTransactions(orders: map<OrderId, Order>)
  {
    forall a, b :: a in orders && b in orders && a != b && orders[a].transactionId.Some? ==>
      orders[a].transactionId != orders[b].transactionId
  }

  /** The direct flow's lookup by transaction id keeps transaction ids unique. */
  lemma DirectPurchaseKeepsTransactionsUnique(orders: map<OrderId, Order>, tickets: map<TicketId, Ticket>, s: Session, newId: OrderId)
    requires DirectFlowApplies(orders, tickets, s) && newId !in orders
    requires UniqueTransactions(orders)
    ensures UniqueTransactions(DirectPurchase(orders, tickets, s, newId).orders)
  {
    var r := DirectPurchase(orders, tickets, s, newId);
    forall a, b | a in r.orders && b in r.orders && a != b && r.orders[a].transactionId.Some?
      ensures r.orders[a].transactionId != r.orders[b].transactionId
    {
      if a == newId {
        assert b in orders && orders[b].transactionId != s.paymentIntent;
      } else if b == newId {
        assert a in orders && orders[a].transactionId != s.paymentIntent;
      }
    }
  }

  /** A retried pre-created order: an order for 2 units of a ticket with 5 in
      stock leaves 1 after two calls, not 3. */
  lemma DoubleDecrementExample()
    ensures var seller := Seller("seller@example.com", "Seller");
      var ticket := Ticket("Concert", "music", "", "", seller, 5);
      var order := Order("t1", "buyer@example.com", seller, "Concert", "music", "", "", 2, 10.0, "pending", None);
      var s := Session(COMPLETE, Some("pi_1"), 2000, Metadata(Some("o1"), None, "buyer@example.com"));
      var r := ReconcileAll(map["o1" := order], map["t1" := ticket], s, ["n1", "n2"]);
      && r.tickets["t1"].quantity == 1
      && r.orders["o1"].status == PAID
      && r.result == PaymentResult(Some("pi_1"), Some("o1"))
  {
    var seller := Seller("seller@example.com", "Seller");
    var ticket := Ticket("Concert", "music", "", "", seller, 5);
    var order := Order("t1", "buyer@example.com", seller, "Concert", "music", "", "", 2, 10.0, "pending", None);
    var s := Session(COMPLETE, Some("pi_1"), 2000, Metadata(Some("o1"), None, "buyer@example.com"));
    var ids: seq<OrderId> := ["n1", "n2"];
    assert ids[0] != ids[1] && ids[0] != "o1" && ids[1] != "o1";
    OrderFlowRetries(map["o1" := order], map["t1" := ticket], s, ids);
  }

  /** A direct purchase of a ticket with no stock left still creates the paid
      order and leaves the ticket at -1. */
  lemma NegativeStockExample()
    ensures var ticket := Ticket("Concert", "music", "", "", Seller("seller@example.com", "Seller"), 0);
      var s := Session(COMPLETE, Some("pi_2"), 1500, Metadata(None, Some("t1"), "buyer@example.com"));
      var r := Reconcile(map[], map["t1" := ticket], s, "n1");
      && r.tickets["t1"].quantity == -1
      && "n1" in r.orders && r.orders["n1"].status == PAID
      && r.result == PaymentResult(Some("pi_2"), Some("n1"))
  {
  }
}
