/** The documents the ticket-marketplace service keeps in its four collections
    (tickets, orders, users, sellerRequests) and the checkout session it reads
    back from the payment gateway. Identifiers are the strings the service
    puts into session metadata; the database's ObjectId parsing is not part of
    this model. */
module Records {

  datatype Option<+T> = None | Some(value: T)

  type OrderId = string
  type TicketId = string
  type Email = string

  /** JavaScript truthiness of an optional string field: it is present and
      not the empty string. */
  predicate Truthy(v: Option<string>)
  {
    v.Some? && v.value != ""
  }

  /** The seller reference a ticket carries and an order copies. */
  datatype Seller = Seller(email: Email, name: string)

  /** A ticket listing; `quantity` is the stock counter that payments decrement. */
  datatype Ticket = Ticket(
    name: string,
    category: string,
    description: string,
    image: string,
    seller: Seller,
    quantity: int)

  /** An order. `transactionId` is `None` while the order has none (a pending
      order created by the client) and the gateway's payment intent once paid. */
  datatype Order = Order(
    ticketId: TicketId,
    customer: Email,
    seller: Seller,
    name: string,
    category: string,
    description: string,
    image: string,
    quantity: int,
    price: real,
    status: string,
    transactionId: Option<string>)

  /** The metadata attached to a checkout session when it was created. */
  datatype Metadata = Metadata(orderId: Option<OrderId>, ticketId: Option<TicketId>, customer: Email)

  /** The checkout session as the gateway returns it; `amountTotal` is in cents
      and `paymentIntent` is absent until the gateway has one. */
  datatype Session = Session(status: string, paymentIntent: Option<string>, amountTotal: int, metadata: Metadata)

  /** The JSON body `/payment-success` answers with; `orderId: None` is `null`. */
  datatype PaymentResult = PaymentResult(transactionId: Option<string>, orderId: Option<OrderId>)

  /** A user document: the other fields of the sign-up body, two timestamps and a role. */
  datatype User = User(email: Email, fields: map<string, string>, createdAt: string, lastLoggedIn: string, role: string)
}
