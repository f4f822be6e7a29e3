# plant-net-server: order, inventory and access-control core in Dafny

This project models the decision logic of the route handlers of the
plantNet marketplace server (`index.js`). The server is an Express
application over three MongoDB collections: `users`, `plants` (the catalog)
and `orders`. Each handler in the model is a pure function
`(store, request) -> Step`. A `Step` is the HTTP response (status and body,
or no response at all), the store afterwards, and the outside calls the
handler makes: order mails, and the payment intent sent to the payment
provider.

Modules follow the server's components:

- `Collection`: a collection is the sequence of its documents in natural
  order. `findOne` returns the first match. `updateOne` and `deleteOne` act on
  the first match, and `updateMany` on every match.
- `Records`: users, plants, orders, the store, and the unique-key
  predicates `UniqueEmails`, `UniquePlantIds` and `UniqueOrderIds`.
- `Api`: status codes, response bodies, effects.
- `Access`: `verifyToken`, then `verifyAdmin` or `verifySeller`.
- `Users`: first sign-in, the admin's user list, the seller request, the
  admin's role change.
- `Orders`: placing an order at the server's price, stock moves, status
  updates, cancellation.
- `Payment`: the amount of the payment intent.
- `Reports`: the customer's and the seller's order lists (`$lookup` and `$unwind`).
- `Stats`: the admin totals and the per-day chart.

Behaviours of the source that the model keeps:

- A role change or seller request for an email with no stored user changes nothing.
- The seller request answers 400 "already requested" also when the user does not exist.
- Any signed-in caller may make a seller request on behalf of any email.
- Any signed-in caller may list any customer's orders.
- Stock may go negative.
- Any order status can be set from any other status.
- Cancelling an order does not restock its plant.
- An order whose plant was deleted disappears from the order lists.
- The admin totals are absent when there are no orders.
- The payment handler does not answer when the plant is missing.
- The first sign-in stores the email sent in the request body, but it looks up
  the email in the path. When the two differ, a duplicate can be created
  (`Users.CreateUserMismatchDuplicates`).

## Model

| member | source | states |
|---|---|---|
| Collection.FindFirst | index.js:157 | `findOne` finds the first document that matches, and finds nothing only when no document matches |
| Collection.Filter | index.js:180-181 | `find` keeps every matching document and nothing else |
| Collection.FilterSubMultiset | index.js:180-181 | `find` returns each stored document at most as many times as it is stored |
| Collection.Count | index.js:391 | the matched count of `updateMany` is zero exactly when no document matches |
| Collection.UpdateAll | index.js:391 | `updateMany` keeps the collection's length, applies the update to every matching document and leaves every other document as it was |
| Collection.RemoveAt | index.js:404 | `deleteOne` removes that one document and keeps the others in order (as multisets: before = after + the removed one) |
| Records.FindUser | index.js:85 | the user lookup returns the first stored user with that email (no earlier user has it), or nothing when no user has it |
| Records.FindPlant | index.js:262 | the plant lookup returns the first stored plant with that id, or nothing when none has it |
| Records.FindOrder | index.js:400 | the order lookup returns the first stored order with that id, or nothing exactly when no order has it |
| Records.FindUserUnique | index.js:85 | with unique emails, the lookup returns the single user with that email |
| Access.Authenticate | index.js:65-79 | a missing or invalid token gives 401; a valid one gives the caller's email |
| Access.Gate | index.js:65-100 | the identity check runs first (401). A role check then gives 403 unless the stored user has the required role. The gate never changes anything |
| Access.GateByStoredRole | index.js:82-100 | with unique emails, a caller passes the Admin or Seller gate exactly when a stored user with their email has that role |
| Access.UnknownUserForbidden | index.js:86 | a caller with no stored user is refused every role-gated route with 403 |
| Access.CustomerIsForbidden | index.js:82-100 | a Customer is refused the Admin and Seller routes |
| Users.CreateUser | index.js:153-167 | an existing email returns the record `findOne` finds (the first with that email) and changes nothing. Otherwise the reply is the insert result and exactly one record is appended: the body's email, name and image, role Customer, no status and the given time |
| Users.CreateUserIdempotent | index.js:157-160 | signing in twice with the same email leaves the store as after the first call, and returns the stored record |
| Users.CreateUserKeepsEmailsUnique | index.js:153-167 | first sign-in keeps emails unique when the body email equals the path email |
| Users.NewUserIsNotPrivileged | index.js:161-165 | a freshly created user is refused the Admin and Seller routes |
| Users.CreateUserMismatchDuplicates | index.js:154-165 | when the body email differs from the path email, an existing email can be stored twice |
| Users.AllUsers | index.js:178-183 | admin only; lists every stored user except the one in the path, none more often than it is stored |
| Users.RequestSeller | index.js:187-200 | 400 exactly when the user is missing or already Requested, and then nothing changes. Otherwise only the first user with that email (the one `findOne` and `updateOne` pick) becomes Requested |
| Users.SecondRequestRejected | index.js:190-192 | a second seller request for the same user gets 400 and changes nothing |
| Users.UpdateRole | index.js:203-214 | admin only. The first user with that email (the one `updateOne` and the gates pick) gets the new role and status verified; nothing else changes. An unknown email matches nothing |
| Users.PromotedUserPassesGate | index.js:203-214 | once an admin gives a user a role, that user passes the gate for that role |
| Users.RequestSellerKeepsEmailsUnique | index.js:187-200 | the seller request keeps emails unique |
| Users.UpdateRoleKeepsEmailsUnique | index.js:203-214 | the role change keeps emails unique |
| Orders.PlaceOrder | index.js:260-283 | an unknown plant gives 400 and writes nothing. Otherwise exactly one order is appended: price = quantity × catalog price, other fields copied from the request. Users and plants are untouched, and two mails are sent (customer, then seller) |
| Orders.ClientPriceIgnored | index.js:267-268 | the price the client sends has no influence on the outcome |
| Orders.PlaceOrderKeepsIdsUnique | index.js:268 | an order inserted under a fresh id keeps order ids unique |
| Orders.Restock | index.js:289-299 | `$inc` moves only the first matching plant's stock by the delta, and keeps it the first match |
| Orders.AdjustStock | index.js:286-301 | the stock moves by +amount when the direction is "increase" and by −amount otherwise. No other plant or field changes, and there is no underflow check |
| Orders.AdjustStockKeepsIdsUnique | index.js:286-301 | stock moves keep plant ids unique |
| Orders.RestockCancels | index.js:290-298 | moving stock by a delta and then by its negation restores the plants |
| Orders.IncreaseThenDecreaseRestores | index.js:286-301 | an increase followed by a decrease of the same amount restores the store exactly |
| Orders.DecrementsAccumulate | index.js:290-299 | after any series of decrements, the stock is the initial stock minus their sum, and no other plant changed |
| Orders.SetOrderStatus | index.js:384-393 | seller only. Every order with the id takes the new status whatever it was before; the rest is unchanged; the matched count is reported |
| Orders.SetOrderStatusIdempotent | index.js:388-391 | setting the same status twice equals setting it once |
| Orders.UniqueIdMatchesAtMostOne | index.js:391 | with unique ids, a status update matches at most one order |
| Orders.CancelOrder | index.js:397-406 | a Delivered order gives 409 and stays. Otherwise the first order with that id is deleted, the rest keep their stored order, and plants and users are untouched |
| Orders.CancelRemovesExactlyThatOrder | index.js:404 | with unique ids, a cancel leaves no order with that id and keeps every other order |
| Orders.DeliveredCannotBeCancelled | index.js:384-406 | once a seller sets an order to Delivered, cancelling it gives 409 |
| Orders.AnyStatusTransitionAccepted | index.js:388-391 | a Delivered order can be set back to any status |
| Payment.ConvertToCent | index.js:58-61 | the cent amount is a whole number of hundreds, and dividing it by 100 gives back the amount |
| Payment.CreatePaymentIntent | index.js:465-481 | a missing plant gives no response and no charge. Otherwise one intent is requested for totalQuantity × price × 100 in "usd"; the client secret is sent only when the provider accepts it, and a refused request gets no response; the store never changes |
| Payment.ChargeIsWholeUnits | index.js:471-474 | every requested charge is a whole number of currency units |
| Payment.ChargeMatchesOrderPrice | index.js:267-268 | for the same plant and quantity, the charge is the placed order's price in cents |
| Payment.ExampleQuote | index.js:471-474 | a plant priced 25, bought 3 at a time, is charged 7500 cents and the accepted intent's secret is sent |
| Payment.ChargeUsesStoredPrice | index.js:467-474 | with unique plant ids, the charge for a stored plant is priced from that plant's own record |
| Reports.Join | index.js:317-338 | each joined row is an input order whose plant exists, shaped for its list |
| Reports.Unwind | index.js:317-327 | `$unwind` makes one row per plant `$lookup` found, in that order; each row is the order with that plant's fields, shaped for its list |
| Reports.LookupUnique | index.js:317-324 | with unique plant ids, `$lookup` finds exactly the plant that `findOne` finds |
| Reports.JoinKeepsOrdersWithPlant | index.js:317-327 | with unique plant ids, the rows are exactly the orders whose plant exists, once each, in stored order |
| Reports.JoinRowsCarryPlant | index.js:328-338 | with unique plant ids, each row carries its plant's name (plus category and image for customers) |
| Reports.CustomerOrders | index.js:305-341 | any signed-in caller gets rows only for orders of the customer email in the query, and only where the plant exists |
| Reports.SellerOrders | index.js:346-380 | seller only. The caller gets rows only for orders addressed to their own email, and only where the plant exists |
| Reports.CustomerOrdersExact | index.js:305-341 | with unique plant ids, the customer list is exactly their orders whose plant exists, in stored order, with the plant's fields |
| Reports.SellerOrdersExact | index.js:346-380 | with unique plant ids, the seller list is exactly the orders addressed to them whose plant exists, with the plant's name |
| Stats.Insert | index.js:439-457 | grouping one more order keeps the chart strictly descending, and adds one order plus its price and quantity to the bucket sums |
| Stats.InsertDates | index.js:440-441 | grouping an order adds its day to the chart's dates and nothing else |
| Stats.InsertBuckets | index.js:440-446 | grouping an order counts it into its day's bucket and leaves every other day's bucket alone |
| Stats.ChartBucketsAreGroups | index.js:428-458 | the chart is strictly descending by date, has a bucket for exactly the days with orders, and each day's bucket is that day's group |
| Stats.ChartIsGrouping | index.js:428-458 | each bucket holds the count, revenue and quantity of exactly its day's orders, with dates distinct and descending |
| Stats.ChartAddsUp | index.js:413-458 | bucket counts sum to the number of orders; bucket revenues and quantities sum to the totals |
| Stats.AdminStat | index.js:410-461 | admin only. Reports the user and plant counts, and totals that are absent exactly when there are no orders. The total is the order count and the sum of prices, and the chart groups the orders by day and adds up to the totals |
| Stats.ExampleSameDay | index.js:439-457 | three orders of one day priced 10, 20 and 30 give one bucket of 3 orders and revenue 60 |
| Stats.Revenue | index.js:443 | the `$sum` of prices is never negative when no price is |
| Stats.Quantity | index.js:444 | the `$sum` of quantities is never negative when no quantity is |
| Stats.SumsAppend | index.js:443-444 | both `$sum` accumulators add over concatenation: the sum of two runs of orders is the sum of their sums |
| Stats.Chart | index.js:428-458 | the chart is strictly descending by date (`$sort: { date: -1 }` over distinct group keys), and empty exactly when there are no orders |
| Stats.TotalsOf | index.js:413-426 | the `$group` document is absent exactly when there are no orders; otherwise it holds the order count and the sum of prices |

## Left out

- Express setup, CORS, cookie parsing, logging and `listen` (index.js:1-23, 494-500): wiring with no decisions.
- Token signing (`/jwt`) and signature verification: cryptography. A `Credential` is the outcome of verifying the cookie: missing, rejected, or signed for an email.
- Logout (index.js:137-149): it only clears a cookie.
- GET /users/role/:email and the catalog routes (plant create, the seller's plant list, plant delete, public plant reads): pass-through reads and writes with no decision logic.
- Mail delivery (index.js:27-54): recorded only as the two `Mail` effects of a placed order. Delivery is fire-and-forget and never changes the outcome.
- The payment provider call (index.js:473-479): recorded only as the `Charge` effect with amount and currency. `ClientSecret(amount)` stands for the secret the provider returns.
- Payment.CreatePaymentIntent: the provider's rules for accepting an amount (positive, above its minimum) are not modelled. Its verdict is the `accepted` parameter. A refused request rejects the awaited call, so the source sends nothing, and the model answers `NoResponse`.
- ObjectId parsing: ids are abstract naturals. An id string that fails to parse throws in the source, which is not modelled. The `$toObjectId` step of the order lists is not modelled either.
- An order's creation day comes from the timestamp in its ObjectId. Here it is a parameter of `Orders.PlaceOrder`, stored on the order. Days are integers whose order matches the order of their "%Y-%m-%d" strings.
- Floating-point numbers: prices and quantities are integers, so `quantity * price` and `* 100` are exact.
- Extra body fields: the source spreads whatever the client sends into new users and orders. The model copies the named fields only, so a client-sent `status` on a new user is not modelled.
- `acknowledged` and `modifiedCount` of driver results: only the matched and deleted counts are modelled.
- `estimatedDocumentCount` is modelled as the exact collection size.
- Concurrency: requests are applied one after another. The store's single-document atomicity is what makes that faithful for `$inc`.
- Orders.CancelOrder: requires the order to exist once the caller is signed in. The source dereferences the missing order (index.js:401) and the request fails with an uncaught error.
- Users.AllUsers: its contract states which users are listed and that none is repeated beyond its stored copies, not that they keep their stored order (the `Filter` it uses does keep it).
