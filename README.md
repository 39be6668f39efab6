# Personal asset manager: token exchange, route guard, asset table and portfolio valuation

This project models the decision logic of a NestJS backend that

- exchanges a third-party identity token (a JWT from the identity provider) for a session token the backend signs itself (`AuthService`, `AuthController`);
- guards routes by reading a bearer token from the `Authorization` header, validating it and attaching the user to the request (`AuthGuard`);
- keeps a user's assets in an `assets` table: add, remove only when owned, list (`AssetsService`);
- values a user's portfolio at each asset's latest daily price and returns an asset's price history (`PortfolioService`).

Everything is sequential: every `await` in these services runs one after another.

Modules, one per source file or shared concern:

| module | file | models |
|---|---|---|
| `Common` | common.dfy | exceptions as `Error`, `Result`, metric events, JavaScript truthiness of strings, storage faults |
| `Seqs` | seqs.dfy | `Filter` and `Map` over sequences, with order lemmas (the `where` and `map` of the queries) |
| `Schema` | schema.dfy | table rows and response shapes (src/database/types.ts, the migrations, the DTO) |
| `Auth` | auth.dfy | src/auth/auth.service.ts as pure functions; `AuthApi`, the service as the guard and controller see it |
| `AuthGuard` | auth_guard.dfy | src/auth/auth.guard.ts: `split(' ')`, the bearer token, the guard decision, a `Request` object the guard updates |
| `AuthController` | auth_controller.dfy | src/auth/auth.controller.ts |
| `Assets` | assets.dfy | src/assets/assets.service.ts as a class whose `assets` field is the table |
| `Portfolio` | portfolio.dfy | src/portfolio/portfolio.service.ts |

How the outside world enters the model:

- **Token decoding** (`jwt-decode`) is a parameter `decode: string -> Decoded`. It gives `Malformed(message)` when the library throws, `NullPayload` when the payload is JSON `null`, and `Payload(claims)` otherwise. Any other non-object payload has no `userId` or `exp` property, so it behaves like `Payload(Claims(None, None, None))`.
- **Signing** (`jsonwebtoken.sign`) is a parameter `sign: (SessionClaims, secret, expiresIn) -> Signed`. It yields a token or the library's error.
- **The clock**: `Math.floor(Date.now() / 1000)` is the integer parameter `now`.
- **Configuration**: the secret and the token lifetime are an `AuthConfig` value. Each may be unset.
- **Metrics**: `metrics.increment` and `metrics.decrement` are not awaited and cannot affect a result. Every operation returns the events it emitted, in order, as a `seq<Metric>`.
- **Exceptions** become `Err` of a tagged `Error`: `Unauthorized`, `Forbidden`, `InternalServerError`, or `PlainError` for a bare JavaScript `Error`. The framework answers a bare `Error` with status 500.
- **Storage**: tables are sequences of rows in stored order. A failing query is a `StorageFault` parameter: `FailsAt(q, message)` makes the `q`-th query of that call fail (queries are numbered from 0 in the order the call issues them).
- **The guard and the controller** take an `AuthApi`, a record of the three service calls. Their contracts therefore hold for any service the framework injects, including the stubs of the tests. `Auth.Service` is the real service, and the `...WithService` lemmas combine the two. Each step records the service calls it made (`ServiceCall`). This records what validation, extraction and issuance were given, and shows which of them were never reached.

Behaviour of the code kept on purpose:

- `!decoded.userId` rejects `""` as well as a missing claim (`Truthy`).
- `decoded.exp < currentTime` is false when `exp` is absent, so a token without `exp` is accepted.
- `exp == now` is accepted.
- The `catch` of `validatePrivyToken` rewraps the method's own `UnauthorizedException`s. So the message is prefixed twice, e.g. `Invalid token: Invalid token: User ID is missing`, and the method never returns `false`.
- `extractUserIdFromToken` throws on a `null` payload (reading `userId` of `null` raises a `TypeError`, which is caught). On an object whose `userId` is missing or empty it returns `null`.
- `quantity || 1` makes a null, absent or zero quantity count as 1.
- `split(' ')[1]` is the text after the first space of the header, up to the second space if there is one. The header `"Bearer  tok"` (two spaces) gives `""`, which the guard rejects as "No token provided".
- Extraction, issuance, removal and listing emit no `count` event; only validation, adding an asset and the two portfolio operations do.
- `removeAsset` and `listAssets` let storage errors through unwrapped.

## Model

| member | source | states |
|---|---|---|
| `Auth.ValidatePrivyToken` | src/auth/auth.service.ts:28-53 | returns `Ok(true)` exactly when the token decodes, its `userId` is truthy and `!(exp < now)`; never `Ok(false)`; every rejection is `Unauthorized` with the rewrapped message; metric log always starts with the count event and is `[count, success]`, `[count, failure]` (decoder error), `[count, invalid_token, failure]` (missing userId, even when also expired) or `[count, expired_token, failure]` |
| `Auth.ExtractUserIdFromToken` | src/auth/auth.service.ts:55-65 | fails (with `Unauthorized` and `extraction_errors` logged) exactly when the token cannot be read; otherwise logs nothing and returns the `userId` claim when it is truthy and `None` when it is absent or empty |
| `Auth.ExtractIgnoresExpiry` | src/auth/auth.service.ts:57-58 | extraction does not depend on the `exp` claim |
| `Auth.ExpiresIn` | src/auth/auth.service.ts:69 | the session lifetime is the configured one when truthy, `"1h"` otherwise |
| `Auth.GenerateMetaversalJwt` | src/auth/auth.service.ts:67-80 | without a truthy secret: `InternalServerError("Secret key is not defined in environment variables")` and no events; with one: exactly the signer's token for `{userId}`, the secret and the lifetime, then `generated_tokens`; a signer error propagates with no event |
| `Auth.NoSecretIgnoresSigner` | src/auth/auth.service.ts:71-77 | without a secret the outcome is the same for every signer (the signer is not consulted) |
| `AuthGuard.Split` | src/auth/auth.guard.ts:19 | `split(' ')` yields at least one piece and no piece contains the separator |
| `AuthGuard.JoinSplit` | src/auth/auth.guard.ts:19 | joining the pieces of a split gives the header back |
| `AuthGuard.SplitJoin` | src/auth/auth.guard.ts:19 | splitting separator-free pieces that were joined gives those pieces back |
| `AuthGuard.BearerToken` | src/auth/auth.guard.ts:19 | a token is found only in a present header that contains a space, and has no space itself |
| `AuthGuard.BearerTokenIsSecondWord` | src/auth/auth.guard.ts:19 | for a header of space-separated words the token is the second word |
| `AuthGuard.BearerHeader` | src/auth/auth.guard.ts:19 | `"Bearer " + t` yields `t` for a space-free `t` |
| `AuthGuard.Guard` | src/auth/auth.guard.ts:17-40 | no truthy bearer token: `Forbidden("Access denied. No token provided.")` before any service call; otherwise validation and extraction get that same token, in that order; a validation exception propagates unchanged; `false` gives `Forbidden("Access denied. Invalid token.")` without extraction; an extraction exception propagates; a falsy id gives `Forbidden("Access denied. No user found.")`; success yields the extracted non-empty id; the events are the service's, in call order |
| `AuthGuard.GuardWithService` | src/auth/auth.guard.ts:19-35 | with the real service the guard admits exactly requests whose bearer token is accepted, attaches that token's `userId`, and never reaches the "Invalid token" or "No user found" denials |
| `AuthGuard.CanActivate` | src/auth/auth.guard.ts:17-40 | on success sets `request.user` to `{id: userId}` and returns `true`; on every failure throws the guard's exception and leaves `request.user` as it was |
| `AuthController.Authenticate` | src/auth/auth.controller.ts:11-21 | validation is called first; a validation exception propagates and `false` gives `Unauthorized("Unauthorized")`, both with no further call; an extraction exception propagates and a falsy id gives `Unauthorized("User ID could not be extracted.")`, both without issuance; otherwise issuance is called with the extracted id and its token becomes `{token}`, or its exception propagates; success exactly when all three succeed |
| `AuthController.ExchangeWithService` | src/auth/auth.controller.ts:12-20 | with the real service the exchange succeeds exactly when the identity token is accepted, a secret is set and signing succeeds, and answers with the token signed for the token's `userId`; a rejected token stops after validation with `Unauthorized`; every failure before issuance is validation's own exception |
| `AuthController.SessionTokenPassesGuard` | src/auth/auth.controller.ts:20 | the issued session token, sent as `Bearer <token>`, passes the guard for the same user while it is unexpired and the token is a single non-empty word, provided that for every token the signer issues the decoder reads back the `userId` it was signed with |
| `Schema.UserAssets` | src/portfolio/portfolio.service.ts:23-27 | the selected rows are exactly the table's rows of that user |
| `Schema.AssetPrices` | src/portfolio/portfolio.service.ts:61-65 | the selected rows are exactly the price rows of that asset |
| `Assets.NewRow` | src/assets/assets.service.ts:19-22 | the inserted row carries the generated id, the caller's user id (overriding any `user_id` in the data) and every field of the data |
| `Assets.Without` | src/assets/assets.service.ts:47-51 | the delete keeps exactly the rows that do not match both the id and the user |
| `Assets.WithoutAppend` | src/assets/assets.service.ts:47-51 | the delete keeps the surviving rows in their order |
| `Assets.WithoutNoMatch` | src/assets/assets.service.ts:47-51 | a delete that matches no row leaves the table unchanged |
| `Assets.WithoutRemovesOne` | src/assets/assets.service.ts:47-51 | with unique ids (the primary key), deleting an owned asset removes exactly one row |
| `Assets.WithoutKeepsUniqueIds` | src/assets/assets.service.ts:47-51 | the delete preserves the primary key |
| `Assets.Listed` | src/assets/assets.service.ts:63-67 | the listing has one entry per row of the user; every entry is the `{id, name, user_id}` projection of a row of that user, and every such row appears |
| `Assets.ListedAppend` | src/assets/assets.service.ts:57-67 | the listing keeps the table order |
| `Assets.AssetsService.AddAsset` | src/assets/assets.service.ts:14-33 | when the insert succeeds, appends the one row `NewRow(...)` and returns it, logging `[count, success]`; when it fails (the storage fails or the generated id is taken), the table is unchanged, `Error("Could not add asset")` is thrown and `[count, failure]` logged; the primary key is preserved |
| `Assets.AssetsService.RemoveAsset` | src/assets/assets.service.ts:35-54 | without a row matching both id and user: `Error("Asset not found or not owned by user")`, table unchanged; a failing check or delete query propagates its error, table unchanged; otherwise the table becomes `Without(...)`, exactly one row shorter, and `assets_removed` is decremented only then |
| `Assets.AssetsService.ListAssets` | src/assets/assets.service.ts:56-68 | the listing of the user's rows, or the storage error unchanged |
| `Portfolio.LatestPrice` | src/portfolio/portfolio.service.ts:32-38 | the `orderBy('date', 'desc').limit(1)` lookup; a found row belongs to the asset; its full contract is `Portfolio.LatestPriceIsLatest` |
| `Portfolio.LatestPriceIsLatest` | src/portfolio/portfolio.service.ts:32-38 | the lookup of an asset's latest price finds none exactly when the asset has no price row; otherwise a price row of that asset whose date is at least every other date of that asset |
| `Portfolio.CalculatePortfolioValue` | src/portfolio/portfolio.service.ts:18-53 | `{totalValue: Total(...)}` (the sum over the user's assets of latest price times `quantity \|\| 1`, unpriced assets adding 0) when no query fails; any failing query, whether the asset query or a price query, gives `InternalServerError("Failed to calculate portfolio value")` and no total; the log is `[count, success]` or `[count, failure]` |
| `Portfolio.TotalAppend` | src/portfolio/portfolio.service.ts:29-43 | the total of two stretches of assets is the sum of their totals |
| `Portfolio.TotalReorder` | src/portfolio/portfolio.service.ts:31-43 | swapping two stretches of assets does not change the total |
| `Portfolio.TotalPermutation` | src/portfolio/portfolio.service.ts:23-43 | any permutation of the assets (equal multisets) has the same total, so the order in which the asset query returns the rows does not matter |
| `Portfolio.TotalWithoutPrices` | src/portfolio/portfolio.service.ts:40-42 | assets with no price rows give a total of 0 |
| `Portfolio.TotalNonNegative` | src/portfolio/portfolio.service.ts:29-43 | non-negative prices and quantities give a non-negative total |
| `Portfolio.ContributionOf` | src/portfolio/portfolio.service.ts:40-42 | a priced asset contributes price times quantity, or the price alone for a null, absent or zero quantity; an unpriced asset contributes 0 |
| `Portfolio.TwoAssetPortfolio` | src/portfolio/portfolio.service.spec.ts:33-69 | quantities 2 and 3 at prices 100 and 200 are valued at 800 |
| `Portfolio.EmptyPortfolio` | src/portfolio/portfolio.service.spec.ts:71-84 | for every asset table with no row of the user, and any price table, the user is valued at 0 |
| `Portfolio.GetAssetHistory` | src/portfolio/portfolio.service.ts:55-78 | when query 0 does not fail: exactly `History(prices, assetId)`, so (by the `History` and `HistoryAppend` rows) the asset's price rows in stored order, one projected entry per row, logged `[count, success]`; when it fails: `InternalServerError("Failed to fetch asset history")`, logged `[count, failure]` |
| `Portfolio.History` | src/portfolio/portfolio.service.ts:61-73 | one entry per price row of the asset, each the projection of such a row, every such row present; `[]` when there is none |
| `Portfolio.HistoryAppend` | src/portfolio/portfolio.service.ts:69-73 | the history keeps the stored order |
| `Portfolio.LatestInHistory` | src/portfolio/portfolio.service.ts:32-38 | the price the valuation uses is in the asset's history and is dated no earlier than any entry of it |

## Left out

- src/redis/redis.service.ts: a client wrapper that none of the modelled code uses.
- src/metrics/metrics.service.ts only logs to the console. The model records the events the core sends it; sending is not awaited and cannot change a result.
- The internals of `jwt-decode` and `jsonwebtoken` (base64 and JSON decoding, signature algorithms) are foreign libraries. They are the `Decoder` and `Signer` parameters. No cryptography is modelled.
- Claims of an unexpected JSON type are not modelled: `userId` is a string or absent, `exp` an integer or absent. In the source a numeric `userId` passes the truthiness check only when it is non-zero. `<` converts both sides to numbers. `null`, `false`, `true`, `[]` and numeric strings turn into their numeric value and are compared with `now`, so `null` or `"5"` counts as expired and `"99999999999"` does not. An absent `exp`, a plain object, and any string or array that does not convert to a number compare false, so the token is accepted.
- Environment reads (src/config/auth.config.ts) become the `AuthConfig` value. The source's own `'1h'` default in the config file and again in the service are both captured by `ExpiresIn`.
- Routing, dependency injection, request validation decorators (src/assets/dto/assets.dto.ts), the module files and the pass-through controllers src/assets/assets.controller.ts and src/portfolio/portfolio.controller.ts are not part of this model. That includes the portfolio route reading a `userId` route parameter the route does not declare.
- Schema plumbing is not part of this model: migrations, the migration runner and the entities. The model does not reproduce three wiring mismatches: the price table is named `asset_daily_price` in the queries and `asset_daily_prices` in the migration; the camelCase DTO keys differ from the snake_case columns; `name` is not a column of the assets migration.
- Prices are integers. The source's `decimal` column and floating-point arithmetic are not modelled.
- Dates are day numbers, compared as integers.
- `Portfolio.LatestPriceIsLatest`: when several rows share the latest date the query may return any of them. The model picks the first one stored. Its contract states only what holds for every choice.
- Queries without `orderBy` return rows in stored order. The database does not promise that order. `Portfolio.TotalPermutation` shows the total does not depend on it.
- The `users` table and the foreign key from `assets.user_id` are not modelled. The only database constraint modelled is the primary key on `assets.id`. An insert whose generated id is already taken fails like any other insert error.
- `Auth.GenerateMetaversalJwt`: "does not call `sign`" is stated as independence from the signer (`Auth.NoSecretIgnoresSigner`). A pure model cannot observe calls.
