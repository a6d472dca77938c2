# CloudShop session engine and orders store, in Dafny

This project models the two in-memory state machines of the CloudShop
microservices.

- **The auth service** (`TD-Jour6/src/auth-service/app.js`). It keeps a list
  of users and a set of live refresh tokens. It serves register, login,
  refresh, logout and "who am I", and has the `authenticateToken` middleware.
  Module `Auth` gives each handler as a pure step function: from the store
  before the request to the store after it, plus the response.
  `Auth.SessionStore` holds `users` and `refreshTokens` as fields. Its methods
  change them step by step, and each method is proved equal to its step
  function. The lemmas about the step functions state what holds across
  several requests: single use of refresh tokens, rotation chains, idempotent
  logout, register-then-login, and duplicate-email refusal.
- **bcryptjs and jsonwebtoken** stay abstract (module `Crypto`). Each is a
  record of functions. The lemmas that need assumptions about them require
  `HasherSound` or `JwtSound`:
  - a digest matches its own password;
  - a signed token verifies back to its payload until `exp`, and is reported
    as expired from then on (section 4.1.4 of RFC 7519).
- **The orders service** (`TD-Jour6/src/orders-api/main.go`):
  - `Orders.OrderStore` holds the `orders` slice as a sequence field. It has
    the find, list, get, create, update and delete handlers.
  - `Uuid` covers `generateUUID`. It sets the version and variant bits of
    section 4.4 of RFC 4122, then prints the UUID as hex.
  - `OrdersRouter` is the path router, which takes `{id}` out of
    `/orders/{id}`.

Conventions:
- A JSON body field that is absent is modelled as the empty string. Both are
  falsy, and the handlers only test falsiness.
- The clock is a parameter. For tokens it is whole seconds; for stored
  records it is an ISO string. Registration reads the clock once for
  `createdAt` and again for `updatedAt`, so it takes two such parameters.
  A token request, by contrast, takes a single second `now` for every clock
  read it makes; see `Auth.GenerateTokens` and `Auth.RefreshStep` under
  "Left out".
- `crypto.randomUUID()` and the bytes from `rand.Read` are parameters too.
- Emails are compared exactly, with no case folding, as the code does.

Facts about the refresh-token store, as the code behaves:
- A refresh token is stored as a bare string, with no owner and no
  timestamp, and there is no operation that revokes all of a user's tokens.
- Redeeming a refresh token is a membership test followed by a delete, not
  one atomic operation. The model is sequential, so this makes no difference
  to it.
- A removed refresh token can reappear. Signing depends only on the claims
  and the issue second, so a token rotated in the same second it was issued
  (all clock reads of the rotation falling in that second)
  comes back as the same string, and that string is put back into the set
  (`Auth.RotationInSameSecondReissuesToken`).

## Model

| member | source | states |
|---|---|---|
| `Auth.FirstIndex` | TD-Jour6/src/auth-service/app.js:44-50 | `users.find` looks for the first user the predicate accepts: -1 when there is none, otherwise an index that matches with no earlier match |
| `Auth.FindUserByEmail` | TD-Jour6/src/auth-service/app.js:44-46 | none exactly when no stored user has the email; otherwise the first stored user with exactly that email |
| `Auth.FindUserById` | TD-Jour6/src/auth-service/app.js:48-50 | none exactly when no stored user has the id; otherwise the first stored user with that id |
| `Auth.Sanitize` | TD-Jour6/src/auth-service/app.js:52-55 | the public form loses nothing but the digest: putting the user's digest back gives the stored user. Together with `Auth.SanitizeHidesOnlyPassword`, nothing that tells two users apart is kept once their digests are ignored |
| `Auth.SanitizeHidesOnlyPassword` | TD-Jour6/src/auth-service/app.js:52-55 | two users have the same public projection exactly when they differ in nothing but the password digest |
| `Auth.GenerateTokens` | TD-Jour6/src/auth-service/app.js:24-42 | under a sound signer, both tokens are non-empty and hold no space (so they fit a bearer header), and at `now` the access token decodes to `{id, email, role}` and the refresh token to `{id}`, each with its own expiry. `Auth.GeneratedTokensVerify` extends this to every later second |
| `Auth.GeneratedTokensVerify` | TD-Jour6/src/auth-service/app.js:24-42 | the access token decodes to `{id, email, role}` until 15 minutes after issue and is expired from then on; the refresh token decodes to `{id, type: 'refresh'}` until 7 days after issue |
| `Auth.FieldEnd` | TD-Jour6/src/auth-service/app.js:60 | the length of the text before the first space: that prefix holds no space and is followed by a space or by the end |
| `Auth.BearerToken` | TD-Jour6/src/auth-service/app.js:59-60 | the extracted token holds no space, is empty when the header holds no space, and is shorter than the header. `Auth.BearerTokenOfHeader` pins it to the second space-separated field |
| `Auth.BearerTokenOfHeader` | TD-Jour6/src/auth-service/app.js:59-60 | `split(' ')[1]` of `scheme + " " + token + rest` is the token, when neither scheme nor token holds a space and the rest is empty or starts with a space |
| `Auth.Authenticate` | TD-Jour6/src/auth-service/app.js:58-85 | TOKEN_MISSING (401) exactly when the header has no non-empty second field; TOKEN_EXPIRED (401) exactly when verify reports expiry; TOKEN_INVALID (403) exactly when verify fails otherwise; the request passes exactly when the token is present and decodes, and it passes with the decoded payload |
| `Auth.AuthenticateSignedToken` | TD-Jour6/src/auth-service/app.js:58-85 | a bearer header that carries a token the service signed is accepted until the token's `exp`, and refused with TOKEN_EXPIRED from then on |
| `Auth.RegisterStep` | TD-Jour6/src/auth-service/app.js:113-156 | MISSING_FIELDS (400), PASSWORD_TOO_SHORT (400) or EMAIL_EXISTS (409) in that order, each leaving the store unchanged. Otherwise exactly one user is appended after the unchanged earlier users: given id, email and names, the password's digest, role `user`, and the two clock readings as `createdAt` and `updatedAt`. The response is its sanitized form. Distinct emails stay distinct, and refresh tokens are never touched |
| `Auth.LoginStep` | TD-Jour6/src/auth-service/app.js:167-204 | MISSING_FIELDS (400) for an empty field. INVALID_CREDENTIALS (401) both for an unknown email and for a wrong password, with the store unchanged. On success the response carries the tokens issued for the found user and that user's sanitized form, the set gains exactly the new refresh token, and users are unchanged |
| `Auth.RefreshStep` | TD-Jour6/src/auth-service/app.js:215-262 | TOKEN_MISSING (400) or TOKEN_INVALID (403) with no change when the token is empty or not in the set. Otherwise the token is removed. A verify failure (expired or invalid) gives TOKEN_INVALID (403), and a decoded token whose user is gone gives USER_NOT_FOUND (403), with nothing added. Success means the token was in the set, verified, and names a stored user; the new pair is issued for that user, and only its refresh token is added. Users are never touched |
| `Auth.LogoutStep` | TD-Jour6/src/auth-service/app.js:289-299 | always 200. A given token is no longer in the set afterwards. Nothing else is removed and nothing is added; with no token the store is unchanged |
| `Auth.Me` | TD-Jour6/src/auth-service/app.js:273-286 | a rejection by the middleware is passed on unchanged (same status, same code). An authenticated request whose `id` claim names no stored user gets USER_NOT_FOUND (404). Otherwise it gets 200 and the sanitized form of the first stored user with that id |
| `Auth.RegisterSameEmailTwice` | TD-Jour6/src/auth-service/app.js:131-136 | after a successful registration, registering the same email again is refused with EMAIL_EXISTS and no change, and exactly one user has that email |
| `Auth.LoginHidesWhetherEmailIsRegistered` | TD-Jour6/src/auth-service/app.js:178-194 | an unknown email and a known email with a wrong password get the same response and leave the same store |
| `Auth.RegisterThenLogin` | TD-Jour6/src/auth-service/app.js:113-204 | whoever registers can then log in with the same credentials. The access token decodes to their id, their email and role `user` until it expires |
| `Auth.RedeemedTokenIsRefused` | TD-Jour6/src/auth-service/app.js:226-255 | once a token in the set has been presented to refresh, presenting it again gets TOKEN_INVALID. This holds whether the first redemption failed or succeeded, unless the rotation handed back the same string |
| `Auth.RotationInSameSecondReissuesToken` | TD-Jour6/src/auth-service/app.js:252-255 | rotating a refresh token in the second it was issued returns the same string, and that string stays in the set |
| `Auth.RotationChain` | TD-Jour6/src/auth-service/app.js:233-261 | a refresh token issued to a stored user can be rotated any number of times. Each rotation succeeds as long as it comes before the current token expires |
| `Auth.LogoutIsIdempotent` | TD-Jour6/src/auth-service/app.js:289-294 | logging out twice with a token leaves the same store and response as logging out once |
| `Auth.LoggedOutTokenIsRefused` | TD-Jour6/src/auth-service/app.js:289-294 | refresh with a token that has just been logged out gets TOKEN_INVALID |
| `Auth.SessionStore.constructor` | TD-Jour6/src/auth-service/app.js:15-17 | the store starts with no users and no refresh tokens |
| `Auth.SessionStore.Register` | TD-Jour6/src/auth-service/app.js:113-156 | changes only `users`, exactly as `RegisterStep` says, and keeps emails distinct |
| `Auth.SessionStore.Login` | TD-Jour6/src/auth-service/app.js:167-204 | changes only `refreshTokens`, exactly as `LoginStep` says |
| `Auth.SessionStore.Refresh` | TD-Jour6/src/auth-service/app.js:215-262 | changes only `refreshTokens`, exactly as `RefreshStep` says |
| `Auth.SessionStore.Logout` | TD-Jour6/src/auth-service/app.js:289-299 | changes only `refreshTokens`, exactly as `LogoutStep` says |
| `Uuid.SetVersionBits` | TD-Jour6/src/orders-api/main.go:55-56 | the result carries version 4 in byte 6's high nibble and variant `10` in byte 8's top two bits. The low bits of those two bytes and every other byte are unchanged |
| `Uuid.SetVersionBitsFixesVersion4` | TD-Jour6/src/orders-api/main.go:55-56 | the masking leaves the bytes unchanged exactly when they already carry the version 4 and variant bits |
| `Uuid.Format` | TD-Jour6/src/orders-api/main.go:57 | 36 characters that parse back to the bytes (`Uuid.ParseFormat`); `Uuid.FormatLayout` gives the hyphens and the lower-case hex digits of every printed UUID |
| `Uuid.FormatLayout` | TD-Jour6/src/orders-api/main.go:57 | for every sixteen bytes, the printed text has hyphens at 8, 13, 18 and 23 and a lower-case hex digit at each of the other 32 positions |
| `Uuid.GenerateUuid` | TD-Jour6/src/orders-api/main.go:52-58 | 36 characters that parse back to the random bytes with the version and variant bits set: nothing else of the random input is lost. `Uuid.GeneratedUuidLayout` gives the hyphen and version-digit layout |
| `Uuid.ParseFormat` | TD-Jour6/src/orders-api/main.go:57 | the 8-4-4-4-12 hex text can be parsed back to the sixteen bytes it prints |
| `Uuid.GeneratedUuidLayout` | TD-Jour6/src/orders-api/main.go:52-58 | the generated id is 36 characters long. It has hyphens at 8, 13, 18 and 23, the digit `4` at 14, and one of `8`, `9`, `a`, `b` at 19 |
| `Orders.FirstIndex` | TD-Jour6/src/orders-api/main.go:64-71 | -1 exactly when no order has the id; otherwise the index of an order with the id and no earlier one |
| `Orders.RemoveAt` | TD-Jour6/src/orders-api/main.go:336 | one shorter. The orders before the index keep their place, the ones after it move down by one, and only the removed order is missing from the multiset |
| `Orders.Filter` | TD-Jour6/src/orders-api/main.go:182-187 | every listed order is a stored order that the filter keeps |
| `Orders.FilterCounts` | TD-Jour6/src/orders-api/main.go:180-191 | the listing holds every copy of every order the filter keeps, and nothing else |
| `Orders.FilterAll` | TD-Jour6/src/orders-api/main.go:184 | with an empty status filter the listing is all orders, in order |
| `Orders.CheckItems` | TD-Jour6/src/orders-api/main.go:243-251 | true exactly when every item has a non-empty product id, a quantity above 0 and a price above 0 |
| `Orders.OrderStore.constructor` | TD-Jour6/src/orders-api/main.go:43-46 | the store starts empty |
| `Orders.OrderStore.FindOrderById` | TD-Jour6/src/orders-api/main.go:64-71 | the scan returns the first index whose order has the id, or -1 when there is none |
| `Orders.OrderStore.ListOrders` | TD-Jour6/src/orders-api/main.go:176-197 | the accumulator loop returns exactly `Filter(orders, status)`, and `total` is its length |
| `Orders.OrderStore.GetOrder` | TD-Jour6/src/orders-api/main.go:199-215 | ORDER_NOT_FOUND exactly when no order has the id; otherwise the first order with it |
| `Orders.OrderStore.CreateOrder` | TD-Jour6/src/orders-api/main.go:217-272 | an empty user id, an empty item list, or any invalid item is refused with VALIDATION_ERROR (400) and no change. The request succeeds exactly when the user id is non-empty, the item list is non-empty, and every item is valid. Then exactly one order is appended after the unchanged others: a version 4 id, the request's user and items, status `pending`. Every stored order stays well formed |
| `Orders.OrderStore.UpdateOrder` | TD-Jour6/src/orders-api/main.go:274-321 | a non-empty status off the whitelist is refused before the search, and an unknown id gives ORDER_NOT_FOUND. No refusal changes the store. The update succeeds exactly when the status is empty or on the whitelist and some order has the id. Then only the first order with the id changes: it takes the new status, or keeps its status when the given one is empty, and takes the new update time |
| `Orders.OrderStore.DeleteOrder` | TD-Jour6/src/orders-api/main.go:323-341 | ORDER_NOT_FOUND, with no change, exactly when no order has the id; otherwise the store is `RemoveAt` of the first index with it |
| `OrdersRouter.RouteOf` | TD-Jour6/src/orders-api/main.go:345-392 | the handler reached agrees with the method (list and get only for GET, create only for POST, update only for PUT, delete only for DELETE, and 405 only for a method other than GET, PUT and DELETE), and an id handed to a handler is non-empty and holds no slash. The three lemmas below fix which paths reach which handler |
| `OrdersRouter.CollectionPaths` | TD-Jour6/src/orders-api/main.go:348-361 | GET reaches the list, and POST reaches create, exactly at `/orders` and `/orders/` |
| `OrdersRouter.ItemPathsRoute` | TD-Jour6/src/orders-api/main.go:363-384 | `/orders/{id}`, with or without one trailing slash, reaches get, update or delete for that id by method. Any other method gets 405. The id must be non-empty and hold no slash |
| `OrdersRouter.ItemRouteOnlyFromItemPaths` | TD-Jour6/src/orders-api/main.go:363-391 | conversely, a handler for an id is reached only from those two paths, and only with a non-empty id that holds no slash |

## Left out

- Cryptography. bcrypt's rounds and salt are not modelled: `hash` is a plain
  function, so two hashes of one password are equal. bcrypt's cut-off at 72
  bytes is left to the abstract `compare`. The signature, header, algorithm
  and secret of a JWT are left to the abstract `verify`.
- JWT configuration. `JWT_EXPIRES_IN` and `JWT_REFRESH_EXPIRES_IN` are fixed
  at their defaults (15 minutes and 7 days). `nbf` and clock tolerance are
  not used by the service.
- `INTERNAL_ERROR` (500). This is the `try`/`catch` around a library that
  throws, and the abstract libraries never throw.
- Non-string JSON values in request bodies. Password length is counted in
  characters, while JavaScript counts UTF-16 code units; the two differ for
  characters outside the Basic Multilingual Plane.
- Concurrency. This covers `sync.Mutex`, the async ordering of the handlers,
  and the check-then-act races on emails and refresh tokens. The model is
  sequential.
- HTTP plumbing:
  - express, helmet, cors, `writeJSON`, and JSON decoding (including Go's
    "Invalid JSON body" refusal);
  - the health endpoints and the 404 and global error handlers;
  - `http.ServeMux`'s own dispatch and path cleaning in front of
    `ordersRouter`.
- Floating point. `calculateTotal` and the order's `Total` are not
  modelled. `Price` is a real, used only in the `> 0` check.
- `seedOrders`. The order store starts empty; the seed orders would also
  satisfy its invariant.
- Id uniqueness. Order ids and user ids come from random sources, and no
  model contract relies on them being unique. Lookups return the first
  match, as the code does.
- Auth.GenerateTokens: both `jwt.sign` calls get the one clock second `now`,
  while jsonwebtoken reads the clock on each call, so the two tokens of a
  pair could carry `iat`s one second apart when the second ticks between
  the calls.
- Auth.RefreshStep: the `jwt.verify` of the presented token and the signing
  of the new pair share the one clock second `now`, while each reads the
  clock itself. A refresh whose verify and sign straddle a second boundary
  is not modelled, and the "same second" of
  `Auth.RotationInSameSecondReissuesToken` is this single reading. The same
  holds for `Auth.LoginStep`'s signing and for the middleware's verify in
  `Auth.Authenticate`, which each take one `now`.
- Error messages. Each distinct message of the orders service is a distinct
  `OrderError`, and the `code` and status are derived from it. The message
  text itself is not modelled.
