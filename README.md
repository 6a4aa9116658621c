# Refúgio's Lanche: the order lifecycle, in Dafny

This project models the order core of a restaurant ordering platform and proves properties of it:

- **Order creation** (`createOrder`). The requested items are priced against the product catalog. Each line copies the product's name and price. The fixed delivery fee is added. The order is saved through the schema's pre-save hook, which assigns an `RFL` order number from the current order count. As written, Mongoose validates before that hook runs, so the required number is missing and every creation fails (see "## Findings"). The model keeps that behaviour as `SaveAsWritten`, and creation uses the corrected order: the hook first, then validation.
- **Status updates and cancellation** (`updateOrderStatus`, `cancelOrder`). They run against an in-memory order store.
- **Read-only queries.** These are the filtered, newest-first, limited order listing (`getAllOrders`), the lookup by order number (`getOrderByNumber`) and the sales statistics (`getSalesStats`).
- **The order schema's constraints.** These are the enumerations, the required fields, the minimums and the defaults.
- **The order-number formatter**, with its parser.
- **The server's error handler** (`errorHandler`). It maps an error record to an HTTP status and message.
- **The checkout page's submit logic.** This covers the displayed fee and total, the validation ladder and the request body built from the cart.

Modules:

- `Common`: `Option` and `Result`.
- `OrderNumber`: the `"RFL" + padStart(6, '0')` formatter, its parser, and the round trip, injectivity and length proofs.
- `OrderSchema`: the order record, the enumerations and `SchemaValid`.
- `OrderController`: the pricing loop, plus the `OrderStore` class. `OrderStore` holds `seq<Order>` and has the pre-save hook, save, create, status update and cancel.
- `OrderQueries`: listing, lookup and statistics, as functions over `seq<Order>`.
- `ErrorHandler`: the error classifier.
- `Checkout`: the page's submit function.
- `CheckoutBackend`: lemmas that compare what the page shows with what the controller charges and accepts.

Conventions:

- Money is integer cents, so the fee is `500`.
- Instants are integer milliseconds. The current time, local midnight and the first instant of the month are parameters.
- A missing string field is `""` (JavaScript treats it as falsy, as it does `undefined`). A missing `items` array is the empty sequence.
- Order ids are positions in the store. The store never deletes orders.

Three behaviours are easy to misread; the model keeps them as the code has them:

- The schema requires the customer's email (`backend/src/models/Order.js:15-20`). The checkout page has no email input, so it always sends an empty one (see "## Findings").
- The controller charges the 5.00 fee whatever the order type. It never reads `orderType` (`backend/src/controllers/orderController.js:10, 54-55`).
- Status updates are unchecked overwrites. There is no transition table and no status history.

## Model

| member | source | states |
|---|---|---|
| `OrderNumber.Format` | backend/src/models/Order.js:91 | a generated number is the `RFL` prefix followed only by decimal digits, at least six of them |
| `OrderNumber.PadStart` | backend/src/models/Order.js:91 | left-pads to the width and never truncates: the input is a suffix of the result and the rest is fill characters |
| `OrderNumber.RoundTrip` | backend/src/models/Order.js:91 | dropping the `RFL` prefix from a generated number and parsing the zero-padded digits gives back the sequence value |
| `OrderNumber.FormatInjective` | backend/src/models/Order.js:91 | different sequence values always give different order numbers |
| `OrderNumber.FormatLength` | backend/src/models/Order.js:91 | the number is exactly 9 characters for sequence values 1 to 999999 |
| `OrderNumber.FormatNeverTruncates` | backend/src/models/Order.js:91 | the number starts with `RFL`, is at least 9 characters and ends with every digit of the value; past 999999 it grows instead of truncating |
| `OrderSchema.ParseStatus` | backend/src/models/Order.js:69-73 | the status enumeration accepts exactly the seven listed spellings |
| `OrderSchema.ParsePaymentMethod` | backend/src/models/Order.js:59-63 | the payment method must be one of card, pix or cash |
| `OrderSchema.QuantityMessages` | backend/src/models/Order.js:43-47 | exactly one `Quantidade mínima é 1` per item below the minimum (as many messages as such positions), so none exactly when every quantity is at least 1 |
| `OrderSchema.ValidationMessages` | backend/src/models/Order.js:3-54 | validation reports nothing exactly for the documents `SchemaValid` admits: a number, customer name, email and phone, quantities of at least 1 and a non-negative total. A missing number is reported first, with Mongoose's default `required` message |
| `OrderSchema.EnumRoundTrips` | backend/src/models/Order.js:59-73 | every status and payment method spelling reads back to the value it came from |
| `OrderController.PriceItems` | backend/src/controllers/orderController.js:21-51 | items are checked in request order. On success there is one line per requested item, in order, each copying the product's id, catalog name and price, and the running total is the sum of the subtotals. Success happens exactly when every item has a castable ObjectId (24 hex digits, either case) naming a present, available product. Otherwise the error names the first failing item: a malformed id, not found if absent, unavailable if disabled |
| `OrderController.RejectionResponse` | backend/src/controllers/orderController.js:25-38 | a malformed id is the catch's 500 `Erro ao criar pedido` (lines 88-94), a missing product a 404 naming the requested id, an unavailable one a 400 naming the product |
| `OrderController.ItemsTotalNonNegative` | backend/src/controllers/orderController.js:41-42 | with quantities of at least 1 and non-negative catalog prices, the sum of the lines is non-negative, so the schema's `total >= 0` holds |
| `OrderController.NumbersDistinct` | backend/src/models/Order.js:4-8 | in a store built by the controller, no two orders share an order number |
| `OrderController.NextNumberFresh` | backend/src/models/Order.js:88-92 | the number the hook generates next, from count + 1, is held by no stored order |
| `OrderController.OrderStore.PreSave` | backend/src/models/Order.js:88-94 | a document without a number gets `RFL` + (count + 1); an existing number is never overwritten |
| `OrderController.OrderStore.SaveAsWritten` | backend/src/models/Order.js:88-94 | as written, with validation before the hook: a new document without a number always fails the `required` check; a valid document is saved unchanged |
| `OrderController.OrderStore.Save` | backend/src/models/Order.js:88-94 | with the hook run first, saving succeeds exactly when the customer fields, quantities and total are valid; the saved document then passes the schema, and its number is the generated one or the existing one |
| `OrderController.NewOrder` | backend/src/controllers/orderController.js:53-71 | the document handed to `Order.create`: number `RFL`+(count+1), the request's customer and notes, one line per requested item with `subtotal = price * quantity`, fee 5.00, `total = sum(subtotals) + fee`, both statuses pending, estimated delivery 45 minutes after creation, no delivery or cancellation data |
| `OrderController.OrderStore.CreateDocument` | backend/src/controllers/orderController.js:62-71 | `Order.create` with the corrected hook order: it stores `NewOrder` at the end of the store exactly when the customer, quantities and payment method are valid, with a number no stored order holds, and otherwise changes nothing |
| `OrderController.OrderStore.CreateOrder` | backend/src/controllers/orderController.js:8-96 | with the corrected hook order (see "## Findings"; as written every creation gives 500): empty items give 400; the first item whose id cannot be cast gives 500, the first missing product 404 and the first unavailable one 400; a request the schema refuses gives 500. Success happens exactly for accepted requests: 201 with the priced order, fee 5.00, `total = sum(subtotals) + fee`, both statuses pending, number `RFL`+(count+1) unique in the store, and the order appended. On failure the store is unchanged; the store invariant is kept |
| `OrderController.CreatedOrderPricing` | backend/src/controllers/orderController.js:41-71 | every line of a created order copies the name and price of an available catalog product, the total is at least the fee, and the order passes the schema |
| `OrderController.OrderStore.UpdateOrderStatus` | backend/src/controllers/orderController.js:169-203 | an unknown id gives 404; a status outside the enumeration gives 500 with nothing changed. Otherwise the status is overwritten with no transition check, `deliveredAt` is stamped only for `delivered`, and no other field or order changes |
| `OrderController.OrderStore.CancelOrder` | backend/src/controllers/orderController.js:208-247 | an unknown id gives 404; a delivered or cancelled order gives 400 and is left unchanged. Otherwise the status becomes cancelled, `cancelledAt` is now and the reason is recorded, and nothing else changes |
| `OrderQueries.FindByNumber` | backend/src/controllers/orderController.js:142-143 | the result is a stored order with the requested number, and none is found exactly when no stored order has it |
| `OrderQueries.GetOrderByNumber` | backend/src/controllers/orderController.js:140-164 | 200 with the order exactly when some stored order has the number, else 404 `Pedido não encontrado` |
| `OrderQueries.LookupFindsCreated` | backend/src/controllers/orderController.js:142-150 | in a store built by the controller, `RFL`+k finds the k-th created order, and numbers that were never generated give 404 |
| `OrderQueries.BuildQuery` | backend/src/controllers/orderController.js:103-115 | the query built field by field selects exactly the orders with the requested status (an empty status means any) created within the given bounds |
| `OrderQueries.SortNewestFirst` | backend/src/controllers/orderController.js:119 | the sort by `createdAt` descending is a permutation and is newest first |
| `OrderQueries.ListOrders` | backend/src/controllers/orderController.js:117-120 | every listed order is stored and matches the query; nothing is listed more often than stored; the list is newest first with at most the limit (default 50; 0 means none). A matching order left out means the limit was reached, and it is no newer than any listed one |
| `OrderQueries.GetAllOrders` | backend/src/controllers/orderController.js:101-135 | the listing for the request's status, date bounds and limit, with the same guarantees stated against the request parameters |
| `OrderQueries.StatsIgnoreCancelled` | backend/src/controllers/orderController.js:260-281 | every count, revenue sum and per-status group is the same as over the non-cancelled orders alone |
| `OrderQueries.CancelledOrderAddsNothing` | backend/src/controllers/orderController.js:260-281 | adding a cancelled order, whatever its total, changes no statistic |
| `OrderQueries.StatsOfEmptyStore` | backend/src/controllers/orderController.js:254-297 | an empty store gives zero counts, zero revenue and no groups |
| `OrderQueries.TodayWithinMonth` | backend/src/controllers/orderController.js:254-275 | when the month starts no later than today's midnight, today's count is at most the month's, and so is today's revenue for schema-valid orders |
| `OrderQueries.ByStatusAddsUp` | backend/src/controllers/orderController.js:272-281 | the per-status groups never include cancelled, contain only statuses that occur, and their counts sum to the total number of orders |
| `OrderQueries.SalesStatsOf` | backend/src/controllers/orderController.js:252-297 | today's and the month's order counts never exceed the number of non-cancelled orders, which never exceeds the number of stored orders |
| `OrderQueries.GetSalesStats` | backend/src/controllers/orderController.js:252-308 | the statistics reply is always 200, and the total it reports never exceeds the number of stored orders |
| `ErrorHandler.Classify` | backend/src/middleware/errorHandler.js:5-48 | the decision table that the ordered overrides produce: `TokenExpiredError` gives 401 `Token expirado`; `JsonWebTokenError` gives 401 `Token inválido`; `CastError` gives 404; otherwise code 11000 gives 400 `<first key> já existe`; otherwise `ValidationError` gives 400 with the messages joined by `, `; otherwise the error's own status and message |
| `ErrorHandler.HandleError` | backend/src/middleware/errorHandler.js:50-54 | never `success`; the stack appears exactly in development; the status is 500 exactly when none or 0 was classified (or 500 itself); the message is never empty and falls back to `Erro no servidor` exactly when the classified one is empty; a non-zero classified status and a non-empty classified message reach the reply unchanged |
| `ErrorHandler.Join` | backend/src/middleware/errorHandler.js:10-13 | `join(', ')`: nothing gives the empty string; otherwise the result starts with the first part (then the separator when there are more), and its length is the parts' lengths plus one separator between each pair |
| `ErrorHandler.JoinEmpty` | backend/src/middleware/errorHandler.js:9-15 | joined field messages are empty exactly when there are none or a single empty one |
| `ErrorHandler.ValidationErrorReply` | backend/src/middleware/errorHandler.js:9-15 | a validation error is a 400 with every field message joined by `, `, falling back to the generic message only when there is nothing to join |
| `ErrorHandler.TokenErrorsDiffer` | backend/src/middleware/errorHandler.js:35-48 | both token errors are 401, with different messages |
| `ErrorHandler.LaterCheckWins` | backend/src/middleware/errorHandler.js:18-32 | a `CastError` that also carries code 11000 is a 404: the later check overrides |
| `ErrorHandler.UnrecognisedErrorKept` | backend/src/middleware/errorHandler.js:5-6 | an unrecognised error keeps its own non-zero status (else 500) and its own non-empty message (else the generic one) |
| `Checkout.DisplayedFee` | frontend/src/pages/CheckoutPage.jsx:34 | the fee shown is the controller's 5.00 for delivery and nothing exactly for a local order |
| `Checkout.DisplayedTotal` | frontend/src/pages/CheckoutPage.jsx:35 | the total shown is never below the cart total: the cart alone for a local order, the cart plus 5.00 for delivery |
| `Checkout.Submit` | frontend/src/pages/CheckoutPage.jsx:45-88 | refusal happens exactly for an empty cart, a missing name or phone, or a missing street on a delivery, checked in that order with the empty cart first. Otherwise the body is sent: items map one to one, in cart order, to product id and quantity; name, email, phone, order type, payment method and notes are copied; the address is filled for delivery and `{}` for local |
| `Checkout.SubmitToast` | frontend/src/pages/CheckoutPage.jsx:48-61 | a refused submit shows the toast of the first failing check: empty cart, then missing name or phone, then missing street on a delivery |
| `Checkout.SubmitWithEmail` | frontend/src/pages/CheckoutPage.jsx:53-56 | the corrected page: an empty email is refused with the other required fields, and otherwise the decision and body are those of `Submit`, now always with an email |
| `CheckoutBackend.ChargedVersusDisplayed` | frontend/src/pages/CheckoutPage.jsx:34-35 | the page shows fee 0 for a local order, but the controller always adds 5.00. When the cart's prices match the catalog, a local order is charged 5.00 more than displayed and a delivery order exactly what was displayed |
| `CheckoutBackend.PageOrdersNeverAccepted` | frontend/src/pages/CheckoutPage.jsx:20-32 | the page renders no email input, so its form's email stays empty; every request it sends is therefore refused by the schema, whatever the catalog |
| `CheckoutBackend.CorrectedCheckoutAccepted` | frontend/src/pages/CheckoutPage.jsx:66-88 | with the email collected, every request the page sends for orderable products, quantities of at least 1 and a known payment method is accepted |

## Findings

| source | as written | input that shows it | evidently intended | confidence | as-written member | corrected member |
|---|---|---|---|---|---|---|
| backend/src/models/Order.js:4-8 | `orderNumber` is `required`, but it is filled in a `pre('save')` hook (lines 88-94). Mongoose validates a document before it runs `pre('save')` hooks, so the required check sees no number | any valid creation request: `createOrder` builds the document without `orderNumber`, and the save fails validation, which the controller returns as 500 `Erro ao criar pedido` | the number is generated first and then validated, as with a `pre('validate')` hook | medium: depends on Mongoose's documented hook order; not executed | `OrderController.OrderStore.SaveAsWritten` | `OrderController.OrderStore.Save` |
| frontend/src/pages/CheckoutPage.jsx:20-32 | the form state has an `email` field (line 22) that is sent as `customer.email` (line 69), but the page renders no input for it (only name and phone, lines 190-210), so it is always `''`. The order schema requires the email (`backend/src/models/Order.js:15-20`) | any checkout the page lets through, e.g. one item, name `Ana`, phone `1`, local order: the body carries `email: ''`, and creation fails validation | the two sides must agree on the email. The project's documentation lists the customer email as optional, which points to the schema-side fix: drop `required` from `customer.email`. The model proves the page-side alternative instead: collect the email and check it with name and phone | high: the form has no email input; not executed | `CheckoutBackend.PageOrdersNeverAccepted` | `Checkout.SubmitWithEmail` |

## Left out

- QR code generation, the second save that stores it, and `populate` of product references. These are a foreign library, environment configuration and a database join.
- Persistence: `find`, `findById`, `aggregate`, `countDocuments` and `save` are replaced by an in-memory store, with each operation as one sequential step.
- Concurrency: the count-based order number races under concurrent creation, and it could repeat after deletions. Uniqueness is proved only for a sequential store that never deletes orders. The unique index's duplicate-key failure is therefore not modelled as a runtime check.
- Wall-clock time, local midnight and the first of the month are parameters. Date parsing of `startDate`/`endDate` is left out, and so is the 500 that an unparseable date or a malformed order id causes.
- Floating-point money and `toFixed` display. Amounts are integer cents, and rounding is not modelled.
- String setters of the schema (`trim`, `lowercase` on customer fields), `updatedAt`, the Stripe fields, `receiptUrl` and `qrCode`.
- The `error` detail field of the controllers' 500 replies, and all `console.error` logging.
- Authentication of the admin routes. It is an external gate around `jwt.verify` and database lookups.
- `OrderController.PriceItems`: quantities are whole numbers. The schema's `min: 1` on a `Number` also admits fractional quantities such as 1.5, and numeric strings that `*` coerces; the controller prices and creates those, and the model cannot express such a request. Product ids are strings. A request item without a `product` field is taken as the empty string, which is malformed (500), whereas `findById(undefined)` finds nothing and answers 404 `Produto undefined não encontrado`. Non-string ids (numbers, objects) are not modelled.
- `OrderQueries.ListOrders`: a negative limit is taken as its absolute value. MongoDB's single-batch cut-off for negative limits and a non-numeric `limit` are not modelled. Orders with equal `createdAt` may come in any order.
- `OrderQueries.SalesStatsOf`: the database does not fix the order of the per-status groups. The model lists them in status order.
- `OrderController.OrderStore.UpdateOrderStatus`: a request with no status at all is treated like an unknown status (500). Mongoose would instead clear the field and save.
- `ErrorHandler.Classify`: a duplicate-key error without a `keyValue` object would itself throw inside the handler. The model treats it as having no keys (`undefined já existe`).
- The checkout page's rendering, toasts, loading flag, cart clearing, navigation and `handleInputChange`. The cart store that computes `cart.total` is not part of this model, so the cart total is an input.
