# Microservices shop: a Dafny model of its request logic

The system is four small HTTP services:

- **api-gateway**: routes `/api/auth/*`, `/api/products/*` and `/api/orders/*` to the backends. It strips the route prefix and relays each backend's reply. It also aggregates the backends' health and keeps request metrics.
- **product-service**: keeps an in-memory array of products. It lists them with filters, looks them up, creates, updates and deletes them, and checks stock availability.
- **order-service**: keeps an in-memory list of orders. It validates a new order item by item against the product service, runs a small status state machine with cancellation, and computes statistics.
- **auth-service**: keeps an in-memory user table. It handles registration and login, validates bearer tokens, serves the caller's profile, and gives admins a listing of users.

The project has one module per service:

- `Gateway` in `gateway.dfy`
- `ProductService` in `product_service.dfy`
- `OrderService` in `order_service.dfy`
- `AuthService` in `auth_service.dfy`

A shared module, `Common` in `common.dfy`, holds:

- optional values and JSON bodies;
- HTTP replies with the `{error: msg}` body convention;
- the order-preserving `Filter` that every listing is built from.

The state each service mutates is a class whose fields the methods reassign:

- the gateway's metrics registry;
- the `products` array;
- the `orders` list;
- the `users` dict, together with its insertion order.

Each of these methods states its whole new state and the reply it returns. Request handling that only computes is written as functions, and the properties are proved about those functions as lemmas. The two loops in the order service are methods whose loop invariants tie them to a specification function:

- the per-item validation loop of `create_order`;
- the counting loop of `order_stats`.

Everything outside the services' own code becomes an input to the model:

- network calls:
  - the gateway's upstream call is the oracle `send`;
  - its health probes are `probe`;
  - the order service's two product-service calls are `check` and `lookup`;
- cryptography: bcrypt's `hashpw`/`checkpw`, and JWT signing and decoding, are opaque functions passed in;
- values that differ on every run: uuids, timestamps, salts and measured durations are parameters.

Money is held in integer cents.

## Model

| member | source | states |
|---|---|---|
| Common.Filter | services/product-service/server.js:60-70 | the result keeps only elements of the input that pass the test, and is no longer than the input |
| Common.FilterComplete | services/order-service/app.py:50-54 | no element that passes the test is dropped |
| Common.FilterAppend | services/product-service/server.js:58-70 | filtering distributes over concatenation, so the stored order is kept |
| Common.FilterTwice | services/product-service/server.js:60-70 | two filters applied in turn equal one filter by their conjunction |
| Common.FilterKeepAll | services/product-service/server.js:58 | a filter that keeps everything returns the sequence unchanged |
| Common.IndexWhere | services/product-service/server.js:113 | `findIndex` gives the first index whose element passes the test, or -1 iff none passes |
| Gateway.FindService | services/api-gateway/server.js:109 | the first registry entry whose URL is the target; none when no URL matches |
| Gateway.ServiceName | services/api-gateway/server.js:109 | the proxy label is the non-empty key of the FIRST entry whose URL is the target; it is 'unknown' when no entry has that URL or that key is empty |
| Gateway.ServiceNameOfRegistered | services/api-gateway/server.js:109 | with distinct URLs, each registered service is labelled with its own key |
| Gateway.EveryIff | services/api-gateway/server.js:97 | `every(v => v === target)` holds exactly when every element equals the target |
| Gateway.AggregateHealth | services/api-gateway/server.js:84-103 | each entry is UP iff its own check was fulfilled and DOWN iff it was rejected; the overall status is UP with 200 iff all three are fulfilled, else DEGRADED with 503 |
| Gateway.IndexFrom | services/api-gateway/server.js:142 | the first occurrence of the pattern at or after a position, or none |
| Gateway.ReplaceLeading | services/api-gateway/server.js:142 | replacing a pattern the string begins with replaces that leading copy and keeps the rest, however often the pattern recurs |
| Gateway.RulesDisjoint | services/api-gateway/server.js:141-156 | no path matches two of the three proxy routes |
| Gateway.Dispatch | services/api-gateway/server.js:74-183 | a proxied route's prefix matches the path; the 404 handler is reached iff no proxy prefix matches and the request is not a GET of a fixed path; a GET of '/health', '/health/services', '/metrics' or '/' selects that path's own handler |
| Gateway.DispatchProxied | services/api-gateway/server.js:141-156 | a path is proxied by a rule iff that rule's prefix plus '/' begins the path |
| Gateway.Rewrite | services/api-gateway/server.js:141-156 | the forwarded path is the request path unchanged when the prefix does not occur, else one prefix's length shorter |
| Gateway.RewriteStripsPrefix | services/api-gateway/server.js:141-156 | for a matched path `P + rest` the forwarded path is `rest`, begins with '/', and `P` + it is the original path |
| Gateway.RouteLabel | services/api-gateway/server.js:53 | the metrics `route` label is the route pattern for a proxied request, the raw path for an unmatched one, and one of the fixed GET paths otherwise |
| Gateway.HostOf | services/api-gateway/server.js:118 | the host of a URL is non-empty and holds no '/' |
| Gateway.BuildOutbound | services/api-gateway/server.js:112-121 | URL is serviceUrl + path; method, body and query pass unchanged; `host` is the target's host; every other inbound header is copied unchanged and none is added |
| Gateway.ProxyReply | services/api-gateway/server.js:123-137 | success relays the upstream status and data; failure answers the upstream status, or 500 without a response (never 503), with the upstream data or 'Service unavailable' and the target URL |
| Gateway.Metrics.constructor | services/api-gateway/server.js:18-40 | the registry starts empty and consistent |
| Gateway.Metrics.ObserveRequest | services/api-gateway/server.js:51-56 | one duration sample and one counter increment with the same labels; no other counter changes, so none decreases, and counters keep equal to their sample counts |
| Gateway.Metrics.ObserveProxy | services/api-gateway/server.js:123-130 | exactly one proxy-duration sample is appended; request metrics are untouched |
| Gateway.Gateway.constructor | services/api-gateway/server.js:68-72 | each backend URL is its environment variable when set and non-empty, else its default |
| Gateway.Gateway.ProxyRequest | services/api-gateway/server.js:107-138 | the reply is the relay of the upstream outcome, and exactly one proxy sample is recorded, labelled with the reverse-looked-up key and the status sent |
| Gateway.Gateway.Handle | services/api-gateway/server.js:48-183 | each request records one duration and one counter increment labelled with method, route and the status sent; a proxy sample only for proxied routes; 404 'Route not found' for unmatched paths; the health replies |
| ProductService.LowerIdempotent | services/product-service/server.js:61 | lower-casing (ASCII letters only) twice is lower-casing once |
| ProductService.LowerPlain | services/product-service/server.js:61 | a string without capital letters is its own lower-case form |
| ProductService.ListProducts | services/product-service/server.js:55-76 | the listing is the order-preserving subsequence passing every supplied filter, and `total` is its length |
| ProductService.ListingSteps | services/product-service/server.js:58-70 | the three filters applied in turn, each only when supplied, equal one filter by the conjunction |
| ProductService.ListingMembers | services/product-service/server.js:55-75 | a product is listed iff it is stored and passes every supplied filter |
| ProductService.ListingOrder | services/product-service/server.js:58-70 | the listing of a concatenation is the concatenation of the listings |
| ProductService.ListingUnfiltered | services/product-service/server.js:58-75 | without filters every product is listed in store order |
| ProductService.GetProduct | services/product-service/server.js:79-87 | the first product with the id, or 404 'Product not found' iff none has it |
| ProductService.CheckAvailability | services/product-service/server.js:143-159 | 404 iff the id is unknown; otherwise available is stock >= quantity, with quantity defaulting to 1 when falsy, so a missing or zero quantity counts as one |
| ProductService.NewRecord | services/product-service/server.js:97-105 | the new record keeps name and price and defaults description to '', stock to 0 and category to 'Uncategorized' |
| ProductService.Merge | services/product-service/server.js:119-124 | body fields override the stored ones; the id stays the stored one; updatedAt is set |
| ProductService.RemoveAt | services/product-service/server.js:138 | `splice(i, 1)` removes exactly position i, keeps the rest in order, and removes one copy of that element |
| ProductService.RemoveOnlyOfId | services/product-service/server.js:131-139 | with unique ids, deleting leaves no product with that id and ids stay unique |
| ProductService.ProductStore.constructor | services/product-service/server.js:18-43 | the three seed products, in order |
| ProductService.ProductStore.Create | services/product-service/server.js:90-109 | 400 with the store unchanged when name or price is falsy; otherwise exactly one record appended, earlier ones untouched, 201 |
| ProductService.ProductStore.Update | services/product-service/server.js:112-128 | 404 when absent; otherwise only the found element changes, to the merge; length and every id are kept |
| ProductService.ProductStore.Delete | services/product-service/server.js:131-140 | 404 when absent; otherwise exactly the first match is spliced out and the reply is 204 |
| OrderService.GetOrder | services/order-service/app.py:61-69 | the first order with the id, or 404 'Order not found' iff none has it |
| OrderService.ListOrders | services/order-service/app.py:42-59 | the listing is the order-preserving subsequence matching both supplied filters, and `total` is its length |
| OrderService.ListOrderSteps | services/order-service/app.py:48-54 | the two comprehensions applied in turn equal one filter by the conjunction |
| OrderService.ListedOrders | services/order-service/app.py:42-59 | an order is listed iff it is stored and matches both supplied filters |
| OrderService.PriceItem | services/order-service/app.py:84-123 | 400 without a productId; a raised availability call gives 503 'Failed to validate products'; its 404 gives 404 'Product X not found'; 'not available' gives 400 with requested and available; then a raised price call gives 503, a 200 sets price and name and adds price * quantity, any other status leaves the item unpriced at 0 |
| OrderService.PriceAll | services/order-service/app.py:83-123 | success iff no item is refused; then each stored item is that item as processed by `PriceItem` (priced only when the product lookup answered 200), productIds and quantities are kept, and the total is the sum of the per-item amounts; a refusal is the reply of the first refused item, all earlier ones having passed |
| OrderService.RefusedPrefix | services/order-service/app.py:83-123 | the first refused item decides the reply; later items are never examined |
| OrderService.PriceItems | services/order-service/app.py:83-123 | the loop computes exactly the validation outcome of the whole item list |
| OrderService.Tally | services/order-service/app.py:185-188 | every status that occurs is a key of the breakdown, and each count lies between 1 and the number of orders |
| OrderService.TallyKeysOccur | services/order-service/app.py:185-188 | every key of the breakdown is the status of some order |
| OrderService.TallyCounts | services/order-service/app.py:185-188 | each breakdown entry equals the number of orders with that status; a status is present iff some order has it |
| OrderService.TallySum | services/order-service/app.py:182-188 | the breakdown counts sum to the number of orders |
| OrderService.TallyExtend | services/order-service/app.py:186-188 | one more loop step: the tally of the first i + 1 orders is the tally of the first i with the next order's status counted once more |
| OrderService.BreakdownFacts | services/order-service/app.py:182-193 | for the tally of the orders, the counts sum to the number of orders, each equals the number of orders with that status, a status absent from it occurs in no order, and its keys are allowed statuses when every order's is |
| OrderService.Revenue | services/order-service/app.py:183 | revenue is 0 when every order is cancelled; with no negative amounts it is non-negative and at least the amount of any order not cancelled |
| OrderService.RevenueOfCancel | services/order-service/app.py:183 | cancelling an order removes exactly its amount from the revenue, nothing if already cancelled |
| OrderService.OrderStore.constructor | services/order-service/app.py:18 | the store starts empty |
| OrderService.OrderStore.Create | services/order-service/app.py:71-139 | 400 on missing userId or items, the first refusing item's reply otherwise, in both cases nothing appended; on success one pending order with 'card' and {} defaults appended, 201 |
| OrderService.OrderStore.Update | services/order-service/app.py:141-161 | 404 for an unknown id; a status outside the six gives 400 and no change; a valid one is stored; an absent one changes nothing; statuses stay allowed |
| OrderService.OrderStore.Cancel | services/order-service/app.py:163-177 | 404 for an unknown id; 400 and no change for shipped or delivered; otherwise the status becomes 'cancelled', also when it already was |
| OrderService.OrderStore.Stats | services/order-service/app.py:179-195 | the count loop builds exactly the tally of stored statuses; total is the length; revenue leaves cancelled orders out; when every stored status is allowed, every breakdown key is one of the six allowed statuses; the counts sum to totalOrders, each equals the number of orders with that status, and a status absent from the breakdown occurs in no order |
| AuthService.Login | services/auth-service/app.py:111-142 | 400 on missing fields; success iff the user exists and the password checks; unknown user and wrong password give the same 401 body; a session carries the stored role and expires_in = hours * 3600 |
| AuthService.BearerToken | services/auth-service/app.py:39-45 | no token iff the header is absent or empty; a leading 'Bearer ' is removed; any other header is the token verbatim |
| AuthService.Authenticate | services/auth-service/app.py:35-57 | 401 'Token is missing' without a header; the current user iff the token decodes; every other outcome is 401 |
| AuthService.ValidateToken | services/auth-service/app.py:144-165 | 401 'Token missing' without a header; valid with the token's username and role iff it decodes, the same tokens the decorator accepts |
| AuthService.GetProfile | services/auth-service/app.py:167-181 | authentication errors pass through; 404 'User not found' when the token's user is not stored; otherwise the stored fields with created_at defaulting to '' |
| AuthService.ListUsers | services/auth-service/app.py:183-199 | 403 unless the caller's role is admin; otherwise one entry per user in insertion order with username, email and role only |
| AuthService.UserTable.constructor | services/auth-service/app.py:20-33 | the two seed accounts with hashed passwords, admin then user1 |
| AuthService.UserTable.Register | services/auth-service/app.py:83-109 | 400 or 409 with the table unchanged; otherwise exactly one entry added under the username storing the password's hash, with email '' and role 'user' by default, other users unchanged, 201 |
| AuthService.LoginAfterRegister | services/auth-service/app.py:96-142 | a freshly registered user logs in iff bcrypt's `checkpw` accepts its password against its stored hash, and gets the registered or default role |

## Left out

- Framework plumbing is not modelled. This covers helmet, CORS, morgan, dotenv, server start-up and the gateway's generic error handler (services/api-gateway/server.js:185-189).
- The gateway's rate limiter is not modelled. Its logic lives in `express-rate-limit`, which is not part of this model.
- Express path matching is reduced to a case-sensitive prefix test. The model leaves out:
  - case-insensitive routing;
  - trailing-slash leniency;
  - percent-decoding;
  - how the query string is parsed.
- The gateway's rewrite assigns to `req.path`. Express defines that property as a getter, so at run time the assignment may be ignored and the original path forwarded. The model follows the code as written: a first-occurrence replace.
- The gateway's fallback status for a failed proxy call is 500 (not 503), as the code has it.
- ProductService.Lower: lower-cases only 'A'..'Z', so the case-insensitive category match is ASCII-only. JavaScript's `toLowerCase` also folds non-ASCII letters. For example, category 'Électronique' queried as 'électronique' is listed by the service but not by the model. Some such letters lengthen the string ('İ' becomes two code units), which the model does not capture.
- Gateway.HostOf: states only that the host is non-empty and has no '/'. It is a simplified `new URL(...).host`. It does not model userinfo, default-port dropping, IPv6 literals or validation of the scheme.
- Metrics: the Prometheus rendering, histogram buckets and default process metrics are not modelled. Only the samples and counters are kept. Durations are integer parameters.
- Concurrency is not modelled. `Promise.allSettled` becomes three independent probe outcomes, and an asynchronous proxy call becomes a single step.
- JavaScript and Python floating point are not modelled:
  - `parseFloat`/`parseInt` and NaN;
  - fractional prices;
  - `round(..., 2)` on totals and revenue.

  Prices are integer cents, and a field that does not parse is treated as absent.
- Request bodies carry only the fields the handlers read. Extra keys that a product update would copy into the stored record are not modelled.
- Values of the wrong JSON type are not modelled. Examples are a non-string password or a null quantity. In the source these raise exceptions that the frameworks answer with 500.
- A non-JSON reply from the product service is not modelled on its own. With requests 2.27 or later, `Response.json()` raises a `RequestException` subclass, so the reply is 503. That is the oracle's `CheckFailed`/`PriceFailed` outcome. Older versions raise `ValueError`, which gives a 500.
- A JWT payload without `username` or `role` is not modelled, because decoded claims always carry both. In the source it raises KeyError, answered with 500.
- bcrypt hashing and checking, and JWT signing, decoding and expiry, are opaque functions. Token expiry is the decoder's `Expired` outcome.
- The constant `/health` and `/` replies of the three backends are not modelled.
- The request items that `create_order` mutates in place are not modelled. The model builds new priced items instead, which is the state stored in the order.
- Insertion order of `statusBreakdown` is not modelled: it is a map in the model.
- Flask's choice between `/orders/stats` and `/orders/<order_id>` is not modelled. Stats is modelled as its own operation.
