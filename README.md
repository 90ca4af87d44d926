# Authentication sessions and Stripe webhook dispatch, modelled in Dafny

This project models two parts of the gld-cart backend.

**The authentication service** (`AuthService`). It registers users, logs them in and out, and
refreshes sessions. It works over two stores:

- the user store: MongoDB `User` records, looked up by email and by id;
- the refresh-token store: records pairing a user id with that user's refresh token.

Both stores are the map-valued fields of the class `Auth.AuthService`. Each method of that class
runs the source's guard chain step by step. Each method is proved to leave the stores exactly as
the matching function in module `AuthSpec` says. `AuthSpec` states each operation's error cases
and effects. Module `AuthProperties` proves what holds across operations:

- registering then logging in with the same credentials;
- refresh-token rotation;
- what logout does;
- the invariants every sequence of requests keeps, from any stores that satisfy them.

Foreign code becomes parameters:

- bcrypt is a `Hasher` record of two functions, `hash(password, salt)` and `compare(password, digest)`.
  `Sound(h)` says every digest verifies against its own password.
- The token service is a `TokenService` record: `createTokens(dto, now)` and
  `validateRefreshToken(token, now)`.
- The salt from `bcrypt.genSalt` and the clock are arguments of the operations that use them.
- MongoDB's ObjectId generator is the counter `nextId`.
- The email index is the map `emails`. The `User` schema is assumed to be unique-indexed on email.

**The Stripe webhook controller** (`StripeWebhookController.handleIncomingEvents`), module
`StripeWebhook`. It is one total function. It returns a tagged result: `MissingSignature`,
`VerifyFailed`, `Subscription`, `SubscriptionFailed`, `Payment` or `Unhandled`. `HandlersInvoked`
lists the handler calls that each result stands for. Event construction (signature check over the
raw body) is a function parameter `construct(signature, rawBody)`. The subscription service is a
function parameter `process(event)` that completes or fails.

The model follows the code as written, including where a reader might expect otherwise:

- Login's two failures carry different messages ("Incorrect contact", "Incorrect password").
  A uniform credentials error would not reveal which emails are registered.
- `refresh` accepts any stored record that holds the token. It does not check that the record
  belongs to the token's subject (`RefreshIgnoresRecordOwner`).
- A refresh token that validates for a user id the user store no longer holds reaches
  `new UserDto(null)` inside the try block of `formUserLoginResponse`. That answers
  `InternalServerError`, not `Unauthorized`.
- `auth.service.ts` does not normalise emails. The model compares them exactly, assuming the `User` schema keeps their case.

## Model

| member | source | states |
|---|---|---|
| `AuthSpec.FindByEmail` | src/services/auth/auth.service.ts:46 | `UserModel.findOne({email})`: for valid stores, finds a record exactly when some stored user has that email, and the record found is that user's |
| `AuthSpec.FindById` | src/services/auth/auth.service.ts:78 | `UserModel.findById`: finds a record exactly when the id is stored, and the record found is the one stored under that id |
| `AuthSpec.CreateUser` | src/services/auth/auth.service.ts:35-41 | `UserModel.create`: the new record carries the given type, name, surname, email and password under a fresh id not yet in the store; only that record is added, the email index maps the email to it and the id generator moves past it; the token store is untouched; for an email not on file the stores stay valid and the email now finds the new record |
| `AuthSpec.SaveToken` | src/services/auth/auth.service.ts:103 | `saveToken`, modelled as an upsert keyed by user id: afterwards the user's record holds the new token; every other record and the user store are unchanged |
| `AuthSpec.FindToken` | src/services/auth/auth.service.ts:71-72 | `findToken`: true exactly when some record holds the token |
| `AuthSpec.DoesUserExist` | src/services/auth/auth.service.ts:83-86 | for valid stores, true exactly when some stored user has the email |
| `AuthSpec.HashPassword` | src/services/auth/auth.service.ts:88-95 | with a sound hasher, the digest verifies against the password it was made from |
| `AuthSpec.FormUserLoginResponse` | src/services/auth/auth.service.ts:97-112 | succeeds exactly when there is a user; it then answers the public user with the access and refresh tokens signed for that user's claims, and saves that refresh token under the user's id, nothing else; a null user answers `InternalServerError` and changes nothing |
| `AuthSpec.Register` | src/services/auth/auth.service.ts:24-43 | an email already on file fails with BadRequest "That contact is already registered" and changes nothing; otherwise it succeeds and creates exactly one user under a fresh id, with the given type, name, surname and email, whose stored password is `hash(password, salt)`; it answers that user's public record with the access and refresh tokens signed for it, and saves the returned refresh token under that id; it keeps the stores valid |
| `AuthSpec.Login` | src/services/auth/auth.service.ts:45-57 | an unknown email fails with BadRequest "Incorrect contact"; a known email whose digest rejects the password fails with BadRequest "Incorrect password"; neither changes anything; it succeeds exactly when the email is known and the password verifies; it then answers that user's public record with the access and refresh tokens signed for it, and saves the returned refresh token under that user's id; it keeps the stores valid |
| `AuthSpec.Logout` | src/services/auth/auth.service.ts:59-62 | removes exactly the records holding the token and no others; the user store is unchanged; afterwards no record holds the token |
| `AuthSpec.Refresh` | src/services/auth/auth.service.ts:64-81 | an empty token fails Unauthorized whatever the validator and the stores hold; an invalid token or one not on file fails Unauthorized; a valid token on file whose subject is no longer stored fails with `InternalServerError`; every failure changes nothing; it succeeds exactly when the token is non-empty, validates, is on file and its subject is a stored user; it then answers that subject's public record with the access and refresh tokens signed for it, and saves the new refresh token under its id |
| `Auth.AuthService.constructor` | src/services/auth/auth.service.ts:16-22 | keeps the given hasher and token service, and works over the stores the database already holds, which must be valid (records under their own ids, emails unique); refresh-token records naming users no longer stored are accepted |
| `Auth.AuthService.CreateUser` | src/services/auth/auth.service.ts:35-41 | returns the new record and leaves the stores as `AuthSpec.CreateUser` says |
| `Auth.AuthService.SaveToken` | src/services/auth/auth.service.ts:103 | changes only the token store, as `AuthSpec.SaveToken` says |
| `Auth.AuthService.FindToken` | src/services/auth/auth.service.ts:71-72 | true exactly when some record of the token store holds the token |
| `Auth.AuthService.RemoveToken` | src/services/auth/auth.service.ts:61 | changes only the token store, as `AuthSpec.Logout` says |
| `Auth.AuthService.DoesUserExist` | src/services/auth/auth.service.ts:83-86 | true exactly when some stored user has the email |
| `Auth.AuthService.HashPassword` | src/services/auth/auth.service.ts:88-95 | returns the hasher's digest of the password under the salt; with a sound hasher, that digest verifies against the password |
| `Auth.AuthService.FormUserLoginResponse` | src/services/auth/auth.service.ts:97-112 | answers and leaves the token store as `AuthSpec.FormUserLoginResponse` says |
| `Auth.AuthService.Register` | src/services/auth/auth.service.ts:24-43 | keeps the stores valid; answers and updates both stores as `AuthSpec.Register` says |
| `Auth.AuthService.Login` | src/services/auth/auth.service.ts:45-57 | keeps the stores valid; answers and updates the token store as `AuthSpec.Login` says |
| `Auth.AuthService.Logout` | src/services/auth/auth.service.ts:59-62 | keeps the stores valid; the token store changes as `AuthSpec.Logout` says |
| `Auth.AuthService.Refresh` | src/services/auth/auth.service.ts:64-81 | keeps the stores valid; answers and updates the token store as `AuthSpec.Refresh` says |
| `AuthProperties.RegisterThenLogin` | src/services/auth/auth.service.ts:31-53 | with a sound hasher, after a successful register the same email and password log in, and the answer carries the same public user |
| `AuthProperties.RegisterThenWrongPassword` | src/services/auth/auth.service.ts:34-53 | after register, a password the stored digest rejects fails with "Incorrect password" and changes nothing |
| `AuthProperties.RegisterThenRefresh` | src/services/auth/auth.service.ts:64-81 | when every refresh token decodes to the user it was signed for throughout its lifetime `ttl`, the non-empty refresh token a registration answers with, presented within that lifetime, refreshes the same user's session |
| `AuthProperties.LoginThenRefresh` | src/services/auth/auth.service.ts:64-81 | when every refresh token decodes to the user it was signed for throughout its lifetime `ttl`, the non-empty refresh token a login answers with, presented within that lifetime, refreshes the same user's session |
| `AuthProperties.RefreshRotates` | src/services/auth/auth.service.ts:69-80 | once refresh has replaced a token with a different one, refreshing the old token fails Unauthorized, provided no other user's record held it |
| `AuthProperties.RefreshIgnoresRecordOwner` | src/services/auth/auth.service.ts:69-80 | as written, a token on file under another user's record still refreshes: it logs in the token's subject and leaves the other record holding the token |
| `AuthProperties.LogoutIdempotent` | src/services/auth/auth.service.ts:59-62 | logging out twice leaves the stores as logging out once |
| `AuthProperties.LogoutEndsSession` | src/services/auth/auth.service.ts:59-77 | after logout, refreshing the same token fails Unauthorized |
| `AuthProperties.StepKeepsInvariant` | src/services/auth/auth.service.ts:24-81 | any single register, login, logout or refresh keeps the stores valid, every stored password a digest the hasher made, and every token record holding a token issued to its owner |
| `AuthProperties.RunKeepsInvariant` | src/services/auth/auth.service.ts:24-81 | any sequence of requests keeps the invariant |
| `AuthProperties.ReachableStoresKeepInvariant` | src/services/auth/auth.service.ts:24-112 | every state reachable from empty stores by any sequence of requests satisfies the invariant: emails are unique, every stored password is a digest the hasher produced, and every refresh-token record holds a token issued to its owner (that each user has at most one record follows from the upsert assumption, not from this proof) |
| `StripeWebhook.HandleSubscriptionEvent` | src/modules/stripe/controllers/stripe-webhook.controller.ts:64-67 | calls `processSubscriptionUpdate` with the event exactly once; the call is an error exactly when that service fails, and its error is propagated |
| `StripeWebhook.HandlePaymentIntentEvent` | src/modules/stripe/controllers/stripe-webhook.controller.ts:69-72 | only logs the event: no service call, no error |
| `StripeWebhook.HandlersInvoked` | src/modules/stripe/controllers/stripe-webhook.controller.ts:53-61 | each case of the type switch calls at most one handler, and a handler runs exactly for a subscription event (processed or failed) or a `payment_intent.succeeded` event |
| `StripeWebhook.Route` | src/modules/stripe/controllers/stripe-webhook.controller.ts:53-61 | an error exactly when a subscription event's service call fails, carrying the service's error; `customer.subscription.updated` and `customer.subscription.created`, and only they, reach `processSubscriptionUpdate`; `payment_intent.succeeded`, and only it, reaches the payment handler; every other type calls no handler and gives `Unhandled` with that type |
| `StripeWebhook.HandleIncomingEvents` | src/modules/stripe/controllers/stripe-webhook.controller.ts:40-62 | a missing or empty `stripe-signature` header gives MissingSignature; a construction failure propagates as VerifyFailed; the only other rejection is a failure of `processSubscriptionUpdate` on a subscription event; a handler runs only for an event constructed successfully; a constructed event is dispatched by the type switch (`Route`) |
| `StripeWebhook.HasSignature` | src/modules/stripe/controllers/stripe-webhook.controller.ts:44 | the `!signature` guard: the header counts as missing exactly when it is absent or empty |
| `StripeWebhook.ConstructedFromSignatureAndBodyOnly` | src/modules/stripe/controllers/stripe-webhook.controller.ts:44-51 | the outcome depends on event construction only through its answer for the header's signature and the raw body; with no signature it does not depend on construction at all |
| `StripeWebhook.SubscriptionEventsProcessedOnce` | src/modules/stripe/controllers/stripe-webhook.controller.ts:54-56 | a verified subscription-updated or subscription-created event reaches `processSubscriptionUpdate` exactly once |
| `StripeWebhook.PaymentIntentReachesPaymentHandler` | src/modules/stripe/controllers/stripe-webhook.controller.ts:57-58 | a verified `payment_intent.succeeded` event reaches the payment handler, which only logs, and raises no error |
| `StripeWebhook.UnknownTypesAcknowledged` | src/modules/stripe/controllers/stripe-webhook.controller.ts:59-61 | a verified event of any other type is acknowledged without error, runs no handler, and does not depend on the subscription service |

## Left out

- Logging (`logger.logInfo`, `logError`, `warn`, `log`) and the `logMessage` argument of `formUserLoginResponse`: they have no effect on the stores or the answers.
- Infrastructure failures are not modelled. This covers a bcrypt failure rethrown by `hashPassword`, `createTokens` or `saveToken` throwing inside `formUserLoginResponse`, and an unreachable store. The one `InternalServerError` modelled is the null user passed in by `refresh`.
- The token service is not part of this model. Token signing, expiry and decoding are the functions of `TokenService`. `saveToken` is assumed to be an upsert keyed by user id, so each user has at most one record. `removeToken` is taken to delete every record holding the token. If it deletes only one such record, the two readings differ only when two users hold the same token.
- Auth.AuthService.Logout: returns nothing. The value `removeToken` resolves to belongs to the unseen token service.
- The `User` model's schema is not part of this model. It is assumed to be unique-indexed on email, so `AuthSpec.Valid` and the constructor of `Auth.AuthService` demand unique emails. It is also assumed to keep the case of emails, so `FindByEmail` matches them exactly. The code in `auth.service.ts` does not normalise emails itself.
- The `UserDto` class is not part of this model. It is taken to copy every field of the user record except the password.
- AuthSpec.Refresh: the `InternalServerError` for a subject no longer stored assumes that the `UserDto` constructor reads a field of its argument, so that `new UserDto(null)` throws inside the try block of `formUserLoginResponse`.
- bcrypt internals (salt generation, work factor, constant-time comparison) are left out. The salt is an argument and the hasher is arbitrary.
- The clock is an argument (`now`). Token lifetimes are inside `validateRefreshToken`.
- A missing (`undefined` or `null`) refresh token is modelled as the empty string. Both are falsy in the `!refreshToken` guard.
- Asynchronous execution and the read-then-write race in `register` are left out. The model runs one request at a time, so the existence check is enough.
- `StripeService.constructEventFromPayload` (the HMAC check) is not part of this model. It is the parameter `construct`.
- `StripeWebhookService.processSubscriptionUpdate` is not part of this model. It is the parameter `process`, which completes or fails. The value it resolves to on success is not modelled.
- The HTTP status sent for a construction error is left out. It depends on what the unseen Stripe service throws.
- Process bootstrap (`src/app.ts`) and dependency-injection wiring (`src/modules/offering/offering.module.ts`) are left out. They do I/O and wiring only.
