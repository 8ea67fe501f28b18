# Good Food order service — a Dafny model

This project models the core of the order service of the Good Food
platform: order creation and status updates over the order table, the
validation of the request bodies, the simulated payment decision, the
availability probe against the catalog service, the two JWT
authentication layers (the `auth-middleware` hook and the `auth` plugin
with its guards) and the RabbitMQ publisher's connect/publish state
machine.

Layout, one module per source file:

- `wrappers.dfy` — `Option` and `Result`.
- `text.dfy` — `Split`, the JavaScript `split(" ")` on strings.
- `roles.dfy` — the `Role` enumeration and the `Role | Role[]` argument of
  the guards.
- `order_dto.dfy` — the `CreateOrderDTO` request schema as predicates, and
  the first offending item (the `UpdateOrderStatusDTO` schema accepts any
  string, which `UpdateStatus` takes as its `status`).
- `order_service.dfy` — the class `OrderStore`, whose `orders` map stands
  for the order table; `Create`, `GetAll`, `GetById`, `UpdateStatus`.
- `payment_service.dfy` — `ProcessPayment` and the decoding of a
  transaction id back to its status.
- `catalog_client.dfy` — the method `CheckAvailability`, its loop over the
  requested items and the log of catalog URLs it probes.
- `auth_middleware.dfy` — `extractRoles`, `derive`, and `onBeforeHandle`
  as a method that sets `set.status` on a `ResponseSet` object.
- `auth_guards.dfy` — `requireAuth`, `requireRoles` and the four fixed
  guards.
- `auth_plugin.dfy` — the plugin's token extraction, `derive`, and the
  `isSignIn`, `hasRole`, `isAdmin`, `isStaff`, `isFranchiseOwner`,
  `isCustomer` macros.
- `rabbitmq.dfy` — the pure `ConnectStep` / `PublishStep` transitions and
  the class `RabbitMqClient` whose `Connect` and `Publish` methods follow
  them.

Calls into code that is not part of this model are parameters: the
database's id generator (`id`), the random transaction suffix (`suffix`),
the catalog HTTP endpoint (`catalog: Probe -> Response`, one response per
URL), JWT verification (`verify` in the middleware, `None` when verification
throws inside its `try`; `verifyToken` in the plugin, `None` when it yields
no payload), `toAuthUser`, and the outcome of each amqp call (`Attempt`).
JavaScript numbers are `real`, so sums are exact.

## Model

| member | source | states |
|---|---|---|
| OrderDto.FirstInvalidItem | src/Order/dto/order.dto.ts:18-26 | `None` exactly when every item has an integer quantity of at least 1 and a non-negative price; otherwise the index of the first item that breaks the schema, every earlier item being valid; an empty item list is accepted |
| OrderService.ToOrderItem | src/Order/order.service.ts:17-21 | a stored item keeps the request's product id, quantity and price |
| OrderService.CopyItems | src/Order/order.service.ts:17-21 | the stored items are the request items one for one, in order, with the same product, quantity and price |
| OrderService.CopyPreservesTotal | src/Order/order.service.ts:10-21 | the total computed from the request equals the sum of price times quantity over the stored items |
| OrderService.InputTotalNonNegative | src/Order/order.service.ts:10 | the total of a request accepted by the schema is never negative |
| OrderService.OrdersCount | src/Order/order.service.ts:30-36 | the table holds exactly one order per id |
| OrderService.OrderStore.Create | src/Order/order.service.ts:9-28 | inserts exactly one new order under a fresh id, status `PENDING`, total the sum of price times quantity, items copied from the request; the other orders are unchanged; the stored order is well formed |
| OrderService.OrderStore.GetAll | src/Order/order.service.ts:30-36 | returns every stored order and nothing else, one per id, and changes nothing |
| OrderService.OrderStore.GetById | src/Order/order.service.ts:38-45 | returns the order with that id, with its items, or `None` when there is none; changes nothing |
| OrderService.OrderStore.UpdateStatus | src/Order/order.service.ts:47-52 | on a missing id fails with `NotFound` and changes nothing; otherwise replaces only that order's status (any string), keeping id, total and items, and leaves every other order unchanged |
| PaymentService.ProcessPayment | src/Payment/payment.service.ts:5-37 | card payments always complete with a `txn_` id; PayPal completes with `txn_pp_` exactly when the amount is at most 1000 and fails with `txn_fail_` above it; every other method stays pending with `txn_pending_` |
| PaymentService.TransactionIdRevealsStatus | src/Payment/payment.service.ts:13-36 | the status can be read back from the transaction id's prefix alone |
| PaymentService.OutcomeIgnoresOrderId | src/Payment/payment.service.ts:5-36 | the order id has no influence on the status or the transaction id |
| PaymentService.PaypalAtLimitCompletes | src/Payment/payment.service.ts:20-30 | a PayPal payment of exactly 1000 completes (the limit is inclusive) |
| CatalogClient.CheckAvailability | src/Utils/catalog.client.ts:4-60 | answers true exactly when every item is available (its dish answers ok with a truthy `availability`, or its dish answers 404 and its menu answers ok with a truthy `availability`); the URLs it probes are those of `Trace`, which stops after the first unavailable item |
| CatalogClient.UrlIdentifiesProbe | src/Utils/catalog.client.ts:12-31 | two lookups fetch the same URL exactly when they are the same lookup, so the probe log is the log of URLs fetched |
| CatalogClient.StopsAtFirstFailure | src/Utils/catalog.client.ts:10-49 | items after the first unavailable one are never probed |
| CatalogClient.MenuOnlyAfterDishNotFound | src/Utils/catalog.client.ts:12-31 | a menu URL is probed only right after the dish URL of the same id answered 404 |
| CatalogClient.QuantityIgnored | src/Utils/catalog.client.ts:10-31 | two requests with the same item ids probe the same URLs whatever the quantities |
| CatalogClient.AllAvailableProbesEveryDish | src/Utils/catalog.client.ts:10-52 | when every item is available, the dish URL of every item is probed, in order |
| Roles.ParseRole | src/Middleware/auth.middleware.ts:5-10 | a string names a role exactly when it is one of the four enumeration values, and names that role |
| Roles.NormaliseRoles | src/Plugin/auth-guards.ts:20-21 | a single role becomes a one-element list; a list is kept as it is |
| AuthMiddleware.KnownRoles | src/Middleware/auth.middleware.ts:31-33 | keeps, in order, exactly the entries naming a role; no longer than its input |
| AuthMiddleware.KnownRolesAppend | src/Middleware/auth.middleware.ts:31-33 | the filter distributes over concatenation |
| AuthMiddleware.KnownRolesKeepsAll | src/Middleware/auth.middleware.ts:31-33 | when every entry names a role, every entry is kept |
| AuthMiddleware.ExtractRoles | src/Middleware/auth.middleware.ts:28-34 | no `role` claim gives no roles; otherwise the roles named by the claim's entries |
| AuthMiddleware.MiddlewareToken | src/Middleware/auth.middleware.ts:41-48 | present only for a `Bearer ` header, and then the text after the prefix up to the next space; never contains a space |
| AuthMiddleware.DeriveUser | src/Middleware/auth.middleware.ts:40-66 | a user exactly when the token is present, verifies and carries a subject; its id is the subject, its roles the extracted roles, its email the claim's |
| AuthMiddleware.Check | src/Middleware/auth.middleware.ts:67-99 | 401 "No Token" without a `Bearer ` header, 401 "Empty Token" when the token is empty, 401 "Invalid Token" when verification fails; passes exactly when the token verifies and either no roles are required or one held role is required; 403 otherwise |
| AuthMiddleware.OnBeforeHandle | src/Middleware/auth.middleware.ts:67-99 | sets the response status to the decision's status and returns its message when it rejects; leaves the status alone and returns nothing when it passes |
| AuthMiddleware.DerivedUserDecidesRoleCheck | src/Middleware/auth.middleware.ts:40-94 | when a user is derived, the hook's role check is decided by that user's roles |
| AuthMiddleware.TokenWithoutSubjectPassesHook | src/Middleware/auth.middleware.ts:54-56 | a verified token without a subject passes the hook while no user is derived |
| AuthGuards.RequireAuth | src/Plugin/auth-guards.ts:14 | passes exactly when the token verifies |
| AuthGuards.RequireRoles | src/Plugin/auth-guards.ts:20-25 | an empty role list checks the token only; otherwise passes exactly when the token verifies and holds one of the required roles |
| AuthGuards.RequireAdmin | src/Plugin/auth-guards.ts:27 | passes exactly when the verified token holds ADMIN |
| AuthGuards.RequireStaff | src/Plugin/auth-guards.ts:28 | passes exactly when the verified token holds STAFF or ADMIN |
| AuthGuards.RequireFranchiseOwner | src/Plugin/auth-guards.ts:29 | passes exactly when the verified token holds FRANCHISE_OWNER or ADMIN |
| AuthGuards.RequireCustomer | src/Plugin/auth-guards.ts:30 | passes exactly when the verified token holds CUSTOMER |
| AuthGuards.GuardsOrdered | src/Plugin/auth-guards.ts:27-30 | whatever passes the admin guard passes the staff and franchise-owner guards |
| AuthPlugin.PluginToken | src/Plugin/auth.ts:19-22 | present exactly for a `Bearer ` header, and then the whole rest of the header |
| AuthPlugin.Derive | src/Plugin/auth.ts:14-58 | no token gives no user and no payload; a token that fails verification gives no user and no payload; otherwise the payload and its converted user |
| AuthPlugin.IsSignIn | src/Plugin/auth.ts:62-72 | when enabled, denies with 401 exactly when there is no user; when disabled, allows |
| AuthPlugin.HasRole | src/Plugin/auth.ts:75-100 | 401 without a user; allows exactly when a held role (missing roles count as none) is required; 403 otherwise |
| AuthPlugin.IsAdmin | src/Plugin/auth.ts:103-115 | 401 without a user; fails with an error when the user has no role list; allows exactly ADMIN; otherwise 403 with "Forbidden - Admin access required" |
| AuthPlugin.IsStaff | src/Plugin/auth.ts:117-131 | as `IsAdmin`, admitting STAFF and ADMIN, 403 with the staff message |
| AuthPlugin.IsFranchiseOwner | src/Plugin/auth.ts:133-150 | as `IsAdmin`, admitting FRANCHISE_OWNER and ADMIN, 403 with the franchise-owner message |
| AuthPlugin.IsCustomer | src/Plugin/auth.ts:152-166 | as `IsAdmin`, admitting CUSTOMER, 403 with the customer message |
| AuthPlugin.ConvenienceGuardsMatchHasRole | src/Plugin/auth.ts:75-166 | without a user or with a role list, each fixed guard answers with the same status as `hasRole` with its role set; without a role list the fixed guards fail where `hasRole` answers 403 |
| AuthPlugin.TokensCompared | src/Plugin/auth.ts:19-22 | the middleware's token is a prefix of the plugin's token, and the two agree exactly when the plugin's token has no space |
| AuthPlugin.TokensDifferOnSpaces | src/Plugin/auth.ts:19-22 | for `Bearer a b` the plugin takes `a b` and the middleware takes `a` |
| RabbitMq.ConnectStep | src/Utils/rabbitmq.ts:9-24 | with a connection already open nothing changes; otherwise keeps what the attempt obtained, and a channel only with a connection |
| RabbitMq.PublishStep | src/Utils/rabbitmq.ts:26-39 | connects first; sends one message to `good-food-events` with the routing key and body exactly when a channel is then open, and none otherwise |
| RabbitMq.ConnectIdempotent | src/Utils/rabbitmq.ts:10 | a second connect after a successful one changes nothing |
| RabbitMq.FirstPublishConnects | src/Utils/rabbitmq.ts:26-38 | on a fresh client, the first publish sends its message exactly when opening the connection and creating the channel both succeed, and nothing otherwise |
| RabbitMq.StuckStateDropsAll | src/Utils/rabbitmq.ts:10-31 | with a connection but no channel, every later publish is dropped and the state never changes |
| RabbitMq.ChannelPublishesAll | src/Utils/rabbitmq.ts:26-38 | with a channel open, every publish is sent, in order |
| RabbitMq.RabbitMqClient.constructor | src/Utils/rabbitmq.ts:5-7 | starts with no connection, no channel and nothing sent |
| RabbitMq.RabbitMqClient.Connect | src/Utils/rabbitmq.ts:9-24 | the new fields are `ConnectStep` of the old ones |
| RabbitMq.RabbitMqClient.Publish | src/Utils/rabbitmq.ts:26-39 | the new fields are `PublishStep` of the old ones, and the messages sent grow by exactly the message it publishes |

## Left out

- Floating point: JavaScript numbers are exact `real`s, so rounding in the order total and in the PayPal comparison is not modelled.
- OrderService.OrderStore.Create: the id comes from the database's generator; the model takes it as a parameter that must not be in use.
- OrderService.OrderStore.UpdateStatus: the database call throws on a missing id; the model returns `Failure(NotFound)` instead of an exception, and returns the order with its items, which the database update does not include.
- OrderDto.FirstInvalidItem: the schema options are written `min`, which the schema library may not enforce (its bound keywords are `minimum` and `exclusiveMinimum`); the model enforces the bounds the option names intend (quantity at least 1, price at least 0), so `InputTotalNonNegative` holds for the intended schema.
- The `OrderDTO` response schema and the field-level error messages of the request validation are not modelled; only what the schemas accept.
- PaymentService.ProcessPayment: the random suffix is a parameter.
- JWT signature verification, public-key decoding and `toAuthUser` are parameters (oracles), not modelled.
- AuthPlugin.Derive: `verifyToken` and `toAuthUser` are called outside any `try`, so a throw from either fails the request; the oracles here cannot throw, and that failure path is not modelled.
- AuthMiddleware.DeriveUser: an `email` claim that is present but `null` is not distinguished from an absent one.
- AuthMiddleware.ExtractRoles: a `role` claim that is not an array (which would throw in the source) is not representable.
- AuthPlugin.HasRole: the `required` / `actual` fields of the 403 body are not modelled, only status and message.
- HTTP transport, JSON encoding, the logger, the environment variables and the broker URL are left out; a published body is an opaque string.
- RabbitMq.PublishStep: `channel.publish`, `JSON.stringify` and `Buffer.from` run outside any `try`, so a closed channel or an undefined message makes `publish` reject; the model always emits the message once a channel is held, so `ChannelPublishesAll` and `RabbitMqClient.Publish` hold only while those calls succeed.
- RabbitMq.ConnectStep: the outcome of `assertExchange` has no effect on the fields and is not modelled; a thrown connect is an attempt that obtained nothing.
- Framework registration (the Elysia plugins, `derive`/`onBeforeHandle` wiring, routes, controllers, the Prisma client setup) is not part of this model.
- Concurrency: interleaved `connect` calls and parallel requests are not modelled; each operation is atomic.
