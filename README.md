# Ticket marketplace: payment reconciliation and account handlers

A Dafny model of the parts of the ticket-resale service's Express server
(`index.js`) that change its MongoDB collections under conditions:

- the payment-reconciliation handler `POST /payment-success`, which takes a
  checkout session retrieved from the payment gateway and either marks a
  pre-created order paid and takes its quantity off the ticket, or inserts a
  paid order for a direct purchase and takes one unit off the ticket, or
  answers `{transactionId, orderId: null}`;
- the sign-up/login upsert `POST /user`, the become-seller request, the
  admin's role update, and the two role gates `verifyADMIN` and `verifySELLER`.

Layout:

- `records.dfy` (module `Records`): the ticket, order, user and session
  documents, and JavaScript truthiness of an optional id.
- `reconciliation.dfy` (module `Reconciliation`): the handler as pure
  functions over the orders and tickets maps (`PayOrder`, `DirectPurchase`,
  `Reconcile`), repeated calls (`ReconcileAll`), and lemmas about retries,
  transaction-id uniqueness and stock.
- `accounts.dfy` (module `Accounts`): users map, seller-request list, role
  gates, and lemmas relating the handlers to the gates.
- `server.dfy` (module `Server`): class `Database` with the four collections
  as fields and one `modifies this` method per route. Each method mirrors the
  route's reads and guarded writes in order. Its postcondition equates the new
  fields and the answer with the specification function.

The model follows `index.js` as written. The pre-created-order flow does not
check the order's previous status. It re-applies on every call and takes the
order's quantity off the ticket each time (`OrderFlowRetries`,
`DoubleDecrementExample`). No decrement checks the stock, so quantities may go
negative (`NegativeStockExample`). The handler has no error answer for a
missing order or ticket: a missing order falls through to the direct-purchase
branch, a missing ticket skips the decrement or the branch, and the answer is
then `{transactionId, orderId: null}`. There is no stock check anywhere. An
idempotent, stock-guarded design is possible, but the code does not
implement one, and this model does not include one.

Modelling choices:

- Ids are strings. A metadata id selects its flow when it is truthy in
  JavaScript's sense: present and non-empty (`Truthy`).
- `payment_intent` may be absent. The lookup `findOne({transactionId})` is
  equality on the optional value. So, as in MongoDB, an absent intent matches
  an order that has no transaction id.
- The id that `insertOne` allocates is the argument `newId`. The store
  guarantees that it is fresh.
- `price: amount_total / 100` is exact `real` division of the integer cents.
- Seller requests are a sequence, because the collection is a list of
  documents. `deleteOne` removes the first match (`RemoveFirst`). Removing
  every request for an email relies on the invariant that no email occurs
  twice. `BecomeSeller` keeps that invariant, and it is part of
  `Database.Valid()`.
- Users are a map keyed by email. Only `POST /user` inserts users, and it
  looks the email up first.
- `PATCH /update-role` includes its `verifyADMIN` gate on the caller.

## Model

| member | source | states |
|---|---|---|
| `Reconciliation.PayOrder` | index.js:144-171 | the named order becomes `paid` with the session's payment intent, all its other fields kept and every other order unchanged; the ticket it refers to loses exactly the order's quantity with no lower bound, every other ticket is unchanged, and nothing changes if the ticket is missing; the answer is `{payment_intent, metadata.orderId}` |
| `Reconciliation.DirectPurchase` | index.js:176-209 | exactly one order is added under the fresh id, with status `paid`, quantity 1, price·100 = `amount_total`, ticket id, customer and transaction id from the session, and seller, name, category, description and image copied from the ticket; existing orders are unchanged; that ticket loses exactly 1 unit and no other ticket changes; the answer carries the new id |
| `Reconciliation.Reconcile` | index.js:139-216 | the answer always carries the payment intent; `orderId` is null exactly when neither flow's guard holds, and then nothing changes; not-complete sessions and sessions naming neither id change nothing; the order flow answers with the metadata order, the direct flow with the new id; a named order is paid with this transaction; no ticket is created or removed and at most the new order is added |
| `Reconciliation.OrderFlowTakesPrecedence` | index.js:144-184 | when the order flow's guard holds it is taken even if a ticket id is present; when it fails and the direct flow's guard holds, control falls through to the direct purchase |
| `Reconciliation.OrderFlowTwice` | index.js:149-171 | a second call with the same completed session sets the same paid state again, gives the same answer, and leaves the ticket 2 × the order's quantity lower than before the first call |
| `Reconciliation.ReconcileAll` | index.js:139-216 | n successive calls with one session: every answer carries the payment intent, no ticket is created or removed, and orders are only added under the allocated ids |
| `Reconciliation.OrderFlowRetries` | index.js:149-171 | n calls for a pre-created order leave it paid exactly as one call does and answer with its id, and take n × its quantity off its ticket (tickets unchanged if the ticket is missing) |
| `Reconciliation.SettledRetriesChangeNothing` | index.js:176-215 | once some order carries the payment intent, calls for a session whose order flow does not apply (no order id, or one naming no stored order) change nothing and answer `orderId: null` |
| `Reconciliation.DirectPurchaseRetries` | index.js:176-215 | n calls for a direct purchase (no order id, or one naming no stored order) insert exactly one order and take exactly one unit off the ticket; only the first answer names the order, later ones answer `orderId: null` |
| `Reconciliation.DirectPurchaseKeepsTransactionsUnique` | index.js:180-199 | the lookup by transaction id before the insert keeps every present transaction id on at most one order |
| `Reconciliation.DoubleDecrementExample` | index.js:149-166 | an order for 2 units of a 5-unit ticket, reconciled twice, leaves the ticket at 1 and the order paid |
| `Reconciliation.NegativeStockExample` | index.js:176-208 | a direct purchase of a ticket with 0 units creates the paid order and leaves the ticket at -1 |
| `Accounts.VerifyAdmin` | index.js:60-69 | passes exactly when a user is stored under the email with role `admin`; otherwise forbids, reporting the stored role or none |
| `Accounts.VerifySeller` | index.js:71-80 | passes exactly when a user is stored under the email with role `seller`; otherwise forbids, reporting the stored role or none |
| `Accounts.UpsertUser` | index.js:308-334 | inserts exactly when the email is unknown, as a `customer` with both timestamps set to the request time; for a known email only `last_loggedin` changes (role, creation time and other fields kept); no other user changes; users stay keyed by email |
| `Accounts.RequestSeller` | index.js:344-355 | rejects (409) exactly when a request for the email exists, changing nothing; otherwise appends one; afterwards a request exists and requests stay free of duplicates |
| `Accounts.RemoveFirst` | index.js:378 | removing a present email takes exactly one occurrence of it out of the requests; an absent email leaves them unchanged |
| `Accounts.FirstIndex` | index.js:378 | gives the position of the first request for the email: it holds that email and no earlier request does |
| `Accounts.RemoveFirstKeepsOrder` | index.js:378 | the deletion removes exactly the first request for the email and keeps the requests before and after it in their order |
| `Accounts.RemoveFirstClears` | index.js:378 | on requests without duplicates, the deletion leaves no request for the email and keeps them free of duplicates |
| `Accounts.RemoveFirstLeavesDuplicate` | index.js:378 | with two requests for one email, one deletion leaves one behind |
| `Accounts.UpdateRole` | index.js:372-380 | a non-admin caller changes nothing; an admin caller sets the stored user's role (users unchanged if the email is unknown) and deletes one seller request for the email; users stay keyed by email |
| `Accounts.UpdateRoleOpensGate` | index.js:372-377 | after an admin sets a stored user's role, that role's gate passes for the user; promotion to seller or admin opens `verifySELLER` or `verifyADMIN` |
| `Accounts.NewUserIsUnprivileged` | index.js:308-333 | a newly signed-up user is forbidden by both role gates, which report role `customer` |
| `Accounts.LoginKeepsGates` | index.js:323-328 | a repeat login does not change any gate's answer for any user and role |
| `Accounts.RequestThenUpdateLeavesNoRequest` | index.js:344-380 | starting from requests without duplicates, a become-seller request then the admin's role update leaves no request for the email |
| `Server.Database.constructor` | index.js:53-57 | the database holds the given four collections and satisfies its invariant |
| `Server.Database.PaymentSuccess` | index.js:139-216 | the sequence of lookups and guarded writes leaves orders, tickets and the answer exactly as `Reconcile` describes; users and seller requests are unchanged |
| `Server.Database.SaveUser` | index.js:308-334 | leaves the users as `UpsertUser` describes; the other collections are unchanged |
| `Server.Database.BecomeSeller` | index.js:344-355 | leaves the seller requests and the answer as `RequestSeller` describes; keeps requests free of duplicates |
| `Server.Database.UpdateRole` | index.js:372-380 | leaves users, requests and the gate's answer as `UpdateRole` describes; after an admin's update no request for the email remains |

## Left out

- Transport: Express routing, CORS, JSON parsing and HTTP status codes (index.js:16-25). The only answers modelled are the 403 of a role gate and the 409 of a repeated seller request.
- `verifyJWT` (index.js:28-41) is a foreign call to Firebase. Where a route uses it, the verified email is an argument: the email a role gate checks, the email of `POST /become-seller`, and the `caller` of `PATCH /update-role`. Other emails come from the unauthenticated request body and are arguments too: the email of `POST /user` (index.js:316-320), so anyone can sign up any email or refresh another user's `last_loggedin`, and the target email of `PATCH /update-role` (index.js:373). `POST /payment-success` has no authentication at all.
- `POST /create-checkout-session` (index.js:104-137) only calls the gateway and persists nothing. Its `unit_amount` arithmetic is JavaScript floating point.
- `stripe.checkout.sessions.retrieve` (index.js:141) is a gateway call. Its result is the `Session` argument.
- `amount_total / 100` is exact `real` division. The model does not reproduce JavaScript's binary floating-point rounding.
- ObjectId parsing. A non-empty id string that is not a valid ObjectId makes `new ObjectId` throw, which ends the request without an answer. The model treats every truthy id as a key that is looked up. When the bad id is the stored order's `ticketId` (index.js:158), the throw comes after the order was already set to paid (index.js:151): the order stays paid, the ticket is not touched, and no answer is sent.
- Document shapes. Pre-created orders come from `POST /orders`, and tickets from `POST`/`PATCH /tickets` (index.js:84-86, 284-289), with any body. The model gives every order a string `ticketId` and an integer `quantity`, and every ticket an integer `quantity`. In the service, `-order.quantity` (index.js:164) is JavaScript unary minus, so a string quantity such as `"2"` still subtracts 2, and a missing one gives `NaN`, which `$inc` stores as the ticket's stock; the model does not cover these values.
- Ticket quantities are assumed numeric. When a ticket's stored `quantity` is not a number, `$inc` fails. By then the order has already been set to paid (index.js:151) or inserted (index.js:199). The order stays paid or inserted, the ticket is not touched, and no answer is sent. The model does not capture these partial writes.
- Clocks: the `new Date()` reads of one `POST /user` request are one `now` argument.
- Plain list, get, insert, delete and patch endpoints (index.js:83-101, 219-305, 338-341, 358-369). These are unconditional reads or writes, so the constructor's arguments stand for whatever they stored. This includes `PATCH /orders/:id`, which can set any status, including turning a paid order back to pending.
- Concurrency: each handler is modelled as one atomic step. In the service, the awaits of two requests can interleave between a lookup and the write it guards. For example, two direct-purchase confirmations can both miss the transaction lookup and both insert. The model does not capture this.
- Logging, the ping and the server start (index.js:383-399).
