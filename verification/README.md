# Sokoni order, stock and payment core in Dafny

This project models the order, stock and payment handlers of the Sokoni e-commerce backend. It also models the small decision rules around them: the auth middleware, the CORS origin check, and four mobile hooks and screens.

The database is an immutable `Db.Store`:

- products by `_id`;
- orders as an append-only sequence;
- users keyed by `clerkId`.

Each request handler is a pure function from the store and the request to a response and a new store. Anything the handlers get from outside is an explicit input:

- whether the payment processor accepted the webhook signature;
- the event type and the payment-intent id;
- the intent metadata, as fields that may be missing;
- the ids the processor or the database hands out;
- the current time.

Module map:

| file | module | models |
|---|---|---|
| `store.dfy` | `Db` | products, orders, users, responses; the `$inc` stock decrement |
| `payment.dfy` | `Payment` | `createPaymentIntent` and `handleWebhook` |
| `orders.dfy` | `Orders` | `createOrder` and `getUserOrders` |
| `auth.dfy` | `Auth` | `protectRoute` and `adminOnly` |
| `cors.dfy` | `Cors` | the CORS `origin` callback |
| `backend.dfy` | `Backend` | any sequence of requests to the four modelled handlers (checkout, webhook, `createOrder`, `protectRoute`), and the invariants that hold after it |
| `cart.dfy`, `wishlist.dfy`, `addresses.dfy`, `layout.dfy` | `Mobile*` | the mobile cart, wishlist and addresses hooks, and the root layout |
| `text.dfy`, `arrays.dfy`, `wrappers.dfy` | `Text`, `Arrays`, `Wrappers` | JavaScript string helpers (`trim`, `toLowerCase`, truthiness), `Array.prototype.some` and `includes`, and `Option` |

## What the code does, as opposed to what its comments say

Checkout's own comment (backend/src/controllers/payment.controller.js:54) says the order is pending "until webhook confirms payment": checkout creates a `pending` order and the webhook is meant to mark that order paid later. The code does something else, and the model follows the code:

- Checkout writes only `{ orderId, userId }` into the intent's metadata.
- The webhook ignores `orderId`. It builds a new order from `metadata.orderItems`, `shippingAddress` and `totalPrice`, then decrements stock.
- For an intent created by checkout, `JSON.parse(undefined)` throws, so the webhook answers 500 and writes nothing.

The lemmas below prove what follows from this:

- `Payment.CheckoutIntentNeverSettles`: checkout's own intent never settles its order.
- `Backend.OrdersOnlyAppended`: no request to the four modelled handlers ever rewrites a stored order.
- `Backend.NoOrderEverPaid`: none of the four modelled handlers ever marks an order paid.

The source never promises that stock stays non-negative; this model states that property itself and asks when it holds. In the code:

- The webhook decrements stock with no check at all.
- `createOrder` checks each line against stock separately, not cumulatively.

`Payment.WebhookOverdraws` and `Orders.RepeatedProductOverdraws` each give an input that drives stock below zero.

## Model

| member | source | states |
|---|---|---|
| Payment.ValidateCart | backend/src/controllers/payment.controller.js:23-40 | validation passes iff every line names a stored product whose stock covers the quantity; the first failing line decides the answer (500 without a product, 404 for an unknown one, 400 for short stock); each snapshot copies the product's id, name, current price and first image, with the line's quantity, in cart order |
| Payment.CreatePaymentIntent | backend/src/controllers/payment.controller.js:10-90 | a missing or empty cart gives 400; any rejection leaves the store unchanged; success appends exactly one order, which is `pending`, has `isPaid` false, no payment result and the snapshotted items, and totals subtotal + 10 + 8% of subtotal; stock never changes; a customer is requested only when the user has none, and its id is then stored on the user; the intent asks for the total in cents with metadata exactly {orderId, userId}; a processor failure gives 500 and the pending order stays |
| Payment.RoundCents | backend/src/controllers/payment.controller.js:72 | the intent amount is within half a cent of total × 100 |
| Payment.CheckoutExample | backend/src/controllers/payment.controller.js:42-44 | one line at 10.00 × 2 gives total 31.60 and an intent for 3160 cents, with stock unchanged |
| Payment.HandleWebhook | backend/src/controllers/payment.controller.js:92-147 | a bad signature gives 400 and other event types give {received: true}, both with nothing changed; a payment id already on some order gives {received: true} with nothing changed; missing or unparsable metadata gives 500 with nothing changed; otherwise exactly one new order is appended, with payment result {id, "succeeded"} and the metadata's items, and stock drops by the items' quantities; existing orders are never modified |
| Payment.WebhookIdempotent | backend/src/controllers/payment.controller.js:112-116 | delivering an event twice leaves the same store and gives the same answer as delivering it once |
| Payment.CheckoutIntentNeverSettles | backend/src/controllers/payment.controller.js:76-123 | the succeeded event for checkout's own intent answers 500 and writes nothing, because its metadata has no `orderItems`; after any such delivery the checkout's order is still `pending` and unpaid |
| Payment.WebhookOverdraws | backend/src/controllers/payment.controller.js:131-137 | the webhook's decrement has no lower bound: stock 1 and quantity 3 leave stock -2 |
| Db.Decrement | backend/src/controllers/order.controller.js:45-50 | after the per-line `$inc`, each product's stock is its old stock minus the total quantity its lines ask for; no other field and no other product changes; lines naming no stored product change nothing |
| Orders.CheckItems | backend/src/controllers/order.controller.js:20-31 | passes iff every line resolves through `item.product?._id` or `item.product` to a stored product whose stock covers that line alone; otherwise the first failing line, in request order, decides: 404 "Product not found" when its product is not stored, 400 "Insufficient stock for <name>" when its stock is short |
| Orders.CreateOrder | backend/src/controllers/order.controller.js:5-57 | a missing address or street address gives 400, checked before the item list; missing or empty items give 400; past both guards, a failing line's answer is exactly `CheckItems`'s; any rejection changes nothing; success answers 201 and appends exactly one `Processing` order holding the client's items, address, payment result and total verbatim; each product's stock drops by its lines' total quantity, resolving ids by the same rule as validation, and no other product field changes |
| Orders.DistinctKeepsStock | backend/src/controllers/order.controller.js:20-50 | if no two lines name the same product, a successful order leaves every non-negative stock non-negative |
| Orders.RepeatedProductOverdraws | backend/src/controllers/order.controller.js:20-50 | the stock check is per line: with stock 1, two lines of that product at quantity 1 are accepted and leave stock -1 |
| Orders.GetUserOrders | backend/src/controllers/order.controller.js:59-84 | the result holds exactly the user's orders (as a multiset), newest `createdAt` first; each order is flagged `hasReviewed` iff some review names its id |
| Orders.SortNewestFirst | backend/src/controllers/order.controller.js:61-63 | the sort result is a permutation of its input, in descending `createdAt` |
| Auth.NewUser | backend/src/middleware/auth.middleware.js:32-41 | a new user's email is `email`, else `primary_email`, else `user_<clerkId>@temp.com`; its name is `full_name`, else `name`, else "Sokoni User"; addresses and wishlist start empty and `stripeCustomerId` starts "" |
| Auth.ProtectRoute | backend/src/middleware/auth.middleware.js:6-54 | no clerk id gives 401, creates no user and does not pass on; a known clerk id passes on its stored user with nothing changed; an unknown one stores exactly one new user under that id and passes it on; products and orders are untouched |
| Auth.ProtectRouteCreatesOnce | backend/src/middleware/auth.middleware.js:24-44 | a second request with the same session finds the first request's user and changes nothing; at most one user is created per clerk id |
| Auth.AdminOnly | backend/src/middleware/auth.middleware.js:56-69 | no user gives 401; otherwise the request passes iff the lower-cased, trimmed emails are equal (two missing emails count as equal), and 403 otherwise |
| Auth.AdminIgnoresCaseAndPadding | backend/src/middleware/auth.middleware.js:61-64 | a user email and an ADMIN_EMAIL that agree once lower-cased are admitted, whatever whitespace pads either of them |
| Auth.NormalizeIgnoresPadding | backend/src/middleware/auth.middleware.js:61-62 | lower-casing then trimming an email ignores any whitespace padding around it |
| Auth.AdminCapitals | backend/src/middleware/auth.middleware.js:61-64 | a user whose email is ADMIN_EMAIL in capitals is admitted |
| Auth.AdminBothMissing | backend/src/middleware/auth.middleware.js:61-64 | with ADMIN_EMAIL unset, a user without an email is admitted |
| Text.Trim | backend/src/middleware/auth.middleware.js:61-62 | `trim` returns a contiguous piece of the input that neither starts nor ends with whitespace, and everything removed around it is whitespace |
| Text.TrimIgnoresPadding | backend/src/middleware/auth.middleware.js:61-62 | whitespace padding on either side does not change the trimmed value |
| Text.LowerForgetsCase | backend/src/middleware/auth.middleware.js:61-62 | lower-casing gives the same string whether or not the input was first upper-cased |
| Text.LowerChar | backend/src/middleware/auth.middleware.js:61-62 | a capital A–Z becomes the corresponding small letter, 32 code points above it; every other character is unchanged |
| Text.Lower | backend/src/middleware/auth.middleware.js:61-62 | `toLowerCase` keeps the length and lower-cases each character on its own |
| Cors.OriginCheck | backend/src/server.js:23-36 | no Origin is allowed; with CLIENT_URL set, an origin is allowed iff it equals CLIENT_URL or the production URL, or ends in ".vercel.app", and is refused with 'Not allowed by CORS' otherwise; with CLIENT_URL unset, every present origin makes the callback throw |
| Cors.PatternIsSuffix | backend/src/server.js:26 | a regular-expression search for `\.vercel\.app$` matches iff the origin ends with ".vercel.app" |
| Cors.AnyEntry | backend/src/server.js:32 | `some` answers match iff some entry matches and every entry before it does not; it answers no match iff no entry matches; otherwise the first entry that throws decides |
| Backend.Step | backend/src/controllers/payment.controller.js:48-56 | each of the four modelled handlers keeps all stored orders in place, and keeps "no order paid, every pending order unpaid without a payment result" |
| Backend.OrdersOnlyAppended | backend/src/controllers/payment.controller.js:119-129 | after any sequence of requests to the four modelled handlers, the orders stored before it are still there unchanged, so checkout's pending order is never updated |
| Backend.NoOrderEverPaid | backend/src/controllers/payment.controller.js:48-56 | after any sequence of requests to the four modelled handlers, no order is marked paid, and every pending order is unpaid and has no payment result |
| MobileCart.UnwrapAcceptsBothShapes | mobile/hooks/useCart.ts:19-23 | `UnwrapCart` reads `{cart: c}` and a bare `c` as the same cart; a falsy body yields a cart whose total and count equal those of no cart at all |
| MobileCart.CartTotal | mobile/hooks/useCart.ts:61-62 | `cartTotal` is 0 without a cart, and otherwise the fold of price × quantity |
| MobileCart.CartItemCount | mobile/hooks/useCart.ts:64 | `cartItemCount` is 0 without a cart, and otherwise the fold of quantities |
| MobileCart.TotalAppend | mobile/hooks/useCart.ts:61-62 | the total of two concatenated item lists is the sum of their totals |
| MobileCart.CountAppend | mobile/hooks/useCart.ts:64 | the count of two concatenated item lists is the sum of their counts |
| MobileCart.CountAtLeastLines | mobile/hooks/useCart.ts:64 | when every quantity is at least 1, the count is at least the number of lines |
| MobileCart.PlaceholderIsEmpty | mobile/hooks/useCart.ts:26-64 | the placeholder cart and a missing cart both show total 0 and count 0 |
| MobileCart.AddDefaultsToOne | mobile/hooks/useCart.ts:30-31 | `addToCart` without a quantity posts the same body as with quantity 1; a line added with the default raises the item count by exactly 1 and the total by one unit price |
| MobileWishlist.WishlistFallbacks | mobile/hooks/useWishlist.ts:15-67 | the query reads `{wishlist: l}` and a bare `l` as the same list; the exposed count is the length of what was read; a failed fetch, the placeholder and a missing list expose the same empty view, and after a failed fetch no product is listed, so toggling adds it |
| MobileWishlist.IsInWishlist | mobile/hooks/useWishlist.ts:51-53 | true iff the wishlist is present and some product in it has `_id` equal to the id |
| MobileWishlist.ToggleWishlist | mobile/hooks/useWishlist.ts:55-61 | exactly one mutation on the given product: remove iff some listed product has that id, add otherwise |
| MobileWishlist.Expose | mobile/hooks/useWishlist.ts:64-67 | the exposed wishlist is [] with count 0 when absent; otherwise it is the list, and the count is always its length |
| MobileAddresses.ShouldRetry | mobile/hooks/useAdressess.ts:36-39 | a 401 error is never retried; any other error is retried iff fewer than 3 failures have been retried |
| MobileAddresses.Retries | mobile/hooks/useAdressess.ts:36-39 | a query whose attempts keep failing is retried at most 3 times in total |
| MobileAddresses.RetryCount | mobile/hooks/useAdressess.ts:36-39 | a first 401 gets no retry; failures of any other status get exactly 3 retries when they keep coming |
| MobileAddresses.LoadingUntilAuthLoaded | mobile/hooks/useAdressess.ts:33-84 | before auth loads the query is disabled and `isLoading` is reported true, whatever the query says; a signed-out user never fetches; once enabled, the reported flag is exactly the query's own |
| MobileAddresses.AddressListsAgree | mobile/hooks/useAdressess.ts:24-83 | the query and the three mutations read a body's `addresses` the same way; once the query has a list, the exposed list (`addresses` or else `[]`) is exactly that list, even when empty; before any data, and for a missing response or data, the list is [] |
| MobileLayout.RedirectFor | mobile/app/_layout.tsx:83-101 | no redirect before auth loads; go to "/(tabs)" iff authenticated (a user id, or signed in) and inside "(auth)"; go to "/(auth)" iff unauthenticated, outside "(auth)" and not at the root; at most one redirect per evaluation |
| MobileLayout.RedirectsSettle | mobile/app/_layout.tsx:95-101 | once either redirect lands, a new evaluation asks for none; an unauthenticated user at the root and an authenticated user outside "(auth)" are never redirected |
| MobileLayout.Authenticated | mobile/app/_layout.tsx:89 | authenticated iff the user id is present and non-empty, or the user is signed in |
| Arrays.Includes | mobile/app/_layout.tsx:86 | `includes` is true iff some segment equals the one sought |
| Arrays.Any | mobile/hooks/useWishlist.ts:52 | `some` is true iff some element satisfies the callback |
| MobileLayout.NothingBeforeLoad | mobile/app/_layout.tsx:83-114 | before auth loads, the stack renders nothing and no redirect is asked for; the root renders iff the publishable key is a non-empty string |
| MobileLayout.TokenRoundTrip | mobile/app/_layout.tsx:56-72 | a token saved under a key is read back by `getToken`; a save leaves other keys' tokens as they were; a save storage refuses leaves the old token readable; a read from unavailable storage gives null instead of throwing |

## Left out

- Payment-processor, database and identity-provider calls are not modelled as code. Signature checks, customer and intent creation, `findById`, `create` and `getAuth` are inputs or store lookups.
- The processor's client secret and intent id are inputs. Log output, Sentry and the `console` calls are left out.
- Concurrency is left out. This covers `Promise.all` in `createOrder`, parallel checkouts and webhook deliveries, and the atomicity of `$inc`. Requests are modelled one after another.
- Prices and totals are exact reals, not JavaScript doubles.
- Payment.RoundCents: rounds the exact total, so floating-point error in `total * 100` is not modelled.
- The order, user, product and review schemas are not part of this model. Schema defaults appear as `SchemaDefault` and as a missing `isPaid`.
- One schema rule is assumed: the webhook treats a NaN `totalPrice` as refused by the Order model, so it answers 500.
- Backend.NoOrderEverPaid: relies on the Order schema's default status not being "pending". The webhook writes no status, and the model gives its orders `SchemaDefault`, a status distinct from `Pending`. If the schema's default were "pending", the webhook's orders would be pending orders with a payment result, and the clause "every pending order has no payment result" would not hold. The schema file is not part of this model.
- The admin, user, review, product and cart controllers mounted in backend/src/server.js are not part of this model. Among them are the admin product creation and deletion routes. The `Backend` invariants cover only the four modelled handlers: checkout, the webhook, `createOrder` and `protectRoute`. An admin or user controller that writes orders or stock could break them.
- Malformed ids are not modelled. Mongoose would throw a cast error for them, giving a 500. Here any id a lookup misses is simply "not found".
- Product ids are assumed non-empty. An empty populated `_id` makes `item.product?._id || item.product` fall back to the object itself, and that case is not modelled.
- A database failure in `protectRoute` (`connectDB` or `User.create` throwing, answered with 500) is left out. So is a throwing `findByIdAndUpdate` in the webhook's decrement loop.
- Cors.OriginCheck: the callback throwing is the outcome `Fault`. What Express then sends is not modelled.
- `getUserOrders` returns orders without `populate("orderItems.product")` applied. Mongo's order among orders with equal `createdAt` is unspecified, and the contract accepts any such order.
- Text.Lower: folds only the ASCII letters A–Z. JavaScript's `toLowerCase` folds every cased Unicode letter.
- The retry driver (TanStack Query) is a library, not part of this model. `MobileAddresses.Retries` assumes its convention: `failureCount` counts the retries made so far and starts at 0.
- React rendering, TanStack Query caching and invalidation, and the pending flags are left out. The cart hook's `updateQuantity`, `removeFromCart` and `clearCart` mutations are left out; they only return `data.cart`.
- Secure storage is a map from keys to strings, and whether it accepts a write or a read is an input.
- The payment-sheet initialisation retry loop in `mobile/app/(tabs)/cart.tsx` is a client screen, not part of this model.
- Database connection caching, server startup, static serving, route wiring, seed data, environment reading and the admin front end are startup, configuration or UI glue, not part of this model.
