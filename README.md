# nest-auth session and verification-code core, in Dafny

This project models the authentication core of the nest-auth NestJS service. It covers:

- `AuthService`: credential check, login, refresh of access tokens, logout from one or all
  devices, the verification-code password reset, and registration.
- The generic Mongo `Repository` that the refresh-session store is built on.
- The `RefreshSessionService`, which fixes the filter each flow uses.
- The `JwtStrategy` guard, which accepts an access token only from a device that still has a
  session.

## Structure

| file | module | what it holds |
|---|---|---|
| `wrappers.dfy` | `Wrappers` | `Option`, `Result` and the HTTP errors the flows raise. |
| `documents.dfy` | `Documents` | Documents and equality filters over a sequence: select, reject, first match, patch. |
| `repository.dfy` | `Repositories` | `expandProjection`, projection, and `class Repository`. |
| `refresh_session.dfy` | `RefreshSessions` | Session documents, the filters the flows use, and `class RefreshSessionService`. |
| `tokens.dfy` | `Tokens` | The JWT library as an abstract signer and decoder, the configuration, `_createToken` and `verify`. |
| `codes.dfy` | `VerificationCodes` | Hex encoding of the 32 random bytes, and the mail html. |
| `auth.dfy` | `Auth` | The auth flows as functions on store values, and `class AuthService`, whose methods are proved equal to them. |
| `jwt_strategy.dfy` | `JwtStrategy` | The guard's key provider, `validate`, and the two composed. |
| `auth_properties.dfy` | `AuthProperties` | Lemmas that relate several flows, and the findings. |

How the model represents the system:

- **Collections.** A collection is a `seq<Doc>` in insertion order. A `Doc` has a numeric `_id` and a map of string fields. A Mongo equality filter is a map that a document must agree with on every key. `deleteMany`, `updateOne` and `updateMany` are `Reject`, `PatchFirst` and `PatchAll`.
- **Repository.** `Repository` is a class whose methods change `docs` and `nextId` in place. Its queries are functions that read it.
- **Crypto.** Signing, decoding and signature checking are function values in `Jwt`. The predicate `Sound` states what an HMAC scheme provides: a signed payload decodes back to itself, and it verifies under its own secret only. Lemmas that need this assume `Sound` as a precondition.
- **bcrypt.** `bcrypt.compare` is the function value `Env.passwordMatches`. The hash that `registration` stores is a parameter.
- **Inputs from outside.** The clock is a parameter `now`, in seconds. The random bytes are a `Bytes32` parameter. The configuration read from `process.env` is a `Config` value.
- **Session invariants.** Two invariants of the session store are proved to be kept by login and logout: every stored refresh token decodes to its session's user (`BoundTokens`), and no two sessions belong to the same user on the same device (`OnePerDevice`).
- **Cache and collaborators.** The Redis cache is a `map<string, string>`. Mails and password changes handed to collaborators are appended to a list of `Effect`s.

## Model

| member | source | states |
|---|---|---|
| Documents.Select | src/core/mongoose/repository/repository.ts:118-130 | `find` returns exactly the documents that match the filter, in order. |
| Documents.SelectEmptyFilter | src/core/mongoose/repository/repository.ts:118 | The default filter `{}` returns the whole collection. |
| Documents.Reject | src/core/mongoose/repository/repository.ts:141 | `deleteMany` keeps exactly the documents that do not match. |
| Documents.SelectRejectPartition | src/core/mongoose/repository/repository.ts:132-152 | The deleted and the kept documents together are the collection, counted with multiplicity. |
| Documents.SelectAppend | src/core/mongoose/repository/repository.ts:118-130 | Selecting from a concatenation is selecting from each part. |
| Documents.RejectAppend | src/core/mongoose/repository/repository.ts:141 | Deleting from a concatenation is deleting from each part. |
| Documents.FirstMatch | src/core/mongoose/repository/repository.ts:67-78 | `findOne` picks the first matching position, or none when nothing matches. |
| Documents.FirstMatchHeadsSelect | src/core/mongoose/repository/repository.ts:67-78 | The first match is the head of `find`'s result, and is absent exactly when `find` returns nothing. |
| Documents.FirstMatchUnique | src/core/mongoose/repository/repository.ts:67-78 | A matching position with no earlier match is the first match. |
| Documents.FindById | src/core/mongoose/repository/repository.ts:201 | Lookup by `_id` returns a stored document with that id, or none. |
| Documents.Patched | src/core/mongoose/repository/repository.ts:167 | An update overwrites its own fields, keeps every other field, and keeps the `_id`. |
| Documents.PatchFirst | src/core/mongoose/repository/repository.ts:167 | `updateOne` patches the first match only, and leaves every other position unchanged. |
| Documents.PatchAll | src/core/mongoose/repository/repository.ts:185 | `updateMany` patches every match, and leaves every non-match unchanged. |
| Documents.PatchedStillMatches | src/core/mongoose/repository/repository.ts:219-221 | An update that writes no filtered field keeps a match matching. |
| Documents.PatchFirstKeepsFirstMatch | src/core/mongoose/repository/repository.ts:214-222 | After such an update, the first match is at the same position. |
| Documents.PatchFirstKeepsMatch | src/core/mongoose/repository/repository.ts:167 | After such an update, every position that matched another filter still matches it. |
| Documents.SelectRejectOther | src/core/mongoose/repository/repository.ts:141 | Deleting one filter's matches keeps, in order, every match of a filter that no document satisfies together with the first. |
| Documents.SelectNarrower | src/core/mongoose/repository/repository.ts:118-130 | A filter whose matches all match another finds no more documents than it. |
| Documents.SelectNone | src/core/mongoose/repository/repository.ts:118-130 | A filter that no document matches selects nothing. |
| Repositories.ExpandProjectionAsWritten | src/core/mongoose/repository/repository.ts:34-47 | As written, the projection is keyed by position: a skipped column overrides the projected column at the same index. |
| Repositories.ExpandProjection | src/core/mongoose/repository/repository.ts:34-47 | Corrected: every projected column maps to 1 and every skipped column to 0, and skipped wins. No options give `{}`. |
| Repositories.Project | src/core/mongoose/repository/repository.ts:119 | An inclusion projection keeps only its 1-columns. Otherwise the 0-columns are dropped. Field values are never altered and the `_id` is always kept. |
| Repositories.ProjectNothing | src/core/mongoose/repository/repository.ts:35-37 | Without options, whole documents are returned. |
| Repositories.Repository.Exists | src/core/mongoose/repository/repository.ts:80-92 | `exists` is true exactly when some document matches. |
| Repositories.Repository.Find | src/core/mongoose/repository/repository.ts:118-130 | Fails exactly on a mixed projection. Otherwise returns the matches, each projected. Without options it returns exactly the matching documents. |
| Repositories.Repository.FindOne | src/core/mongoose/repository/repository.ts:67-78 | Returns none exactly when nothing matches. Otherwise returns the projected first match. |
| Repositories.Repository.FindOneOrFail | src/core/mongoose/repository/repository.ts:94-116 | NotFound exactly when nothing matches. Otherwise returns the first match. |
| Repositories.Repository.Delete | src/core/mongoose/repository/repository.ts:132-152 | With no match: NotFound and the collection unchanged. Otherwise every match is removed, and the number removed is returned. |
| Repositories.Repository.Update | src/core/mongoose/repository/repository.ts:154-178 | With no match: NotFound and the collection unchanged. Otherwise exactly the first match is patched. |
| Repositories.Repository.UpdateMany | src/core/mongoose/repository/repository.ts:180-196 | Every match is patched and the count is returned. It never fails. |
| Repositories.Repository.Create | src/core/mongoose/repository/repository.ts:198-202 | Appends exactly one document with a fresh `_id`, and returns it as re-read. |
| Repositories.Repository.FindOneOrCreate | src/core/mongoose/repository/repository.ts:204-212 | Returns the first match without inserting. Only when nothing matches does it insert exactly one document. |
| Repositories.Repository.UpdateAndGet | src/core/mongoose/repository/repository.ts:214-222 | NotFound when nothing matched before. Otherwise patches the first match and returns the first match after the update. When the update writes no filtered field, that is the patched document. |
| RefreshSessions.SessionFields | src/modules/refresh-session/application/refresh-session.service.ts:9-11 | A new session holds exactly userId, ip, ua and refreshToken. |
| RefreshSessions.DeviceQuery | src/modules/auth/auth.service.ts:96-101 | `{ ip, ua, userId }` matches a user's sessions on one device. |
| RefreshSessions.UserQuery | src/modules/refresh-session/application/refresh-session.service.ts:21-23 | `{ userId }` matches every session of a user, on any device. |
| RefreshSessions.RefreshQuery | src/modules/auth/auth.service.ts:177-179 | `{ ua, ip, refreshToken }` matches the device's sessions that hold that token. |
| RefreshSessions.TokenPatch | src/modules/auth/auth.service.ts:144-146 | The rotation writes the refresh token and nothing else. |
| RefreshSessions.PatchFirstKeepsSessions | src/modules/refresh-session/application/refresh-session.service.ts:21-23 | Updating a session keeps every document a complete session. |
| RefreshSessions.Owner | src/modules/refresh-session/infastructure/entities/refresh-session.entity.ts:13-23 | A session's owner is its userId with its ip and ua; a session matches a device query exactly when that query names its owner. |
| RefreshSessions.OnePerDeviceTail | src/modules/auth/auth.service.ts:96-102 | One session per device holds for the tail of a store, and the head's owner is not repeated in it. |
| RefreshSessions.OnePerDeviceCons | src/modules/auth/auth.service.ts:96-102 | A session whose owner is not repeated can head a store with one session per device. |
| RefreshSessions.DeviceSessionUnique | src/modules/auth/auth.service.ts:96-102 | With one session per device, the `{ ip, ua, userId }` lookup finds at most one session. |
| RefreshSessions.RejectKeepsOnePerDevice | src/core/mongoose/repository/repository.ts:141 | `deleteMany` keeps one session per device. |
| RefreshSessions.PatchFirstKeepsOwners | src/modules/refresh-session/application/refresh-session.service.ts:21-23 | Rotating a token changes no session's user or device. |
| RefreshSessions.RefreshSessionService.CreateRefreshSession | src/modules/refresh-session/application/refresh-session.service.ts:9-11 | Appends exactly one session with the given user, device and token, and returns it. |
| RefreshSessions.RefreshSessionService.GetRefreshSession | src/modules/refresh-session/application/refresh-session.service.ts:13-15 | Returns every session that matches the query, possibly none. |
| RefreshSessions.RefreshSessionService.DeleteRefreshSessionById | src/modules/refresh-session/application/refresh-session.service.ts:17-19 | Deletes every session that matches an arbitrary query. NotFound, with nothing changed, when none matches. |
| RefreshSessions.RefreshSessionService.UpdateRefreshSessionByUserId | src/modules/refresh-session/application/refresh-session.service.ts:21-23 | Filters on userId only and patches the user's first session. NotFound when the user has none. Otherwise returns a session of that user that holds the new token. |
| Tokens.CreateToken | src/modules/auth/auth.service.ts:213-221 | The token carries the configured lifetime. It is signed with the given secret, and its payload is `{ _id }` with issue and expiry times. |
| Tokens.VerifyCreatedToken | src/modules/auth/auth.service.ts:183-185 | A created token verifies exactly under its own secret and before its expiry. |
| VerificationCodes.Hex | src/modules/auth/auth.service.ts:66 | The code is lower-case hex, two characters per byte. |
| VerificationCodes.UnhexHex | src/modules/auth/auth.service.ts:66 | Decoding the code gives back the random bytes. |
| VerificationCodes.HexInjective | src/modules/auth/auth.service.ts:66 | Different random bytes give different codes. |
| VerificationCodes.VerificationHtml | src/modules/auth/auth.service.ts:73 | The html embeds the code right after the fixed prefix. |
| Auth.FindUserByLogin | src/modules/users/users.repository.ts:48-50 | Returns the first user with that login, or none when no user has it. |
| Auth.GetUserById | src/modules/users/users.repository.ts:24-26 | Returns a user with that id, or none when no user has it. |
| Auth.ValidateUser | src/modules/auth/auth.service.ts:78-92 | NotFound exactly for an unknown login. Unauthorized exactly when the hash of the first user with that login does not match. Otherwise that first user, without a top-level password. A success always carries a user, so `return null` is unreachable. |
| Auth.WithSession | src/modules/auth/auth.service.ts:113-118 | Creating a session appends one document and keeps the rest. |
| Auth.SessionToken | src/modules/auth/auth.service.ts:125 | A session's refresh token, or undefined when it has none. |
| Auth.RefreshToken | src/modules/auth/auth.service.ts:172-196 | Succeeds exactly when a session of the device holds the token and the token verifies under the refresh secret. On success, returns the access token for that session's user. Every failure is BadRequest("refresh token is not valid"). |
| Auth.DeleteSessions | src/modules/auth/auth.service.ts:198-211 | NotFound, with nothing changed, exactly when nothing matches. Otherwise exactly the non-matching sessions remain. |
| Auth.AuthService.Login | src/modules/auth/auth.service.ts:94-154 | The step-by-step login has the same result and new store as `LoginSpec`, and keeps the store's invariant. |
| Auth.AuthService.LogoutFromDevice | src/modules/auth/auth.service.ts:198-207 | Same result and store as `LogoutFromDeviceSpec`. |
| Auth.AuthService.LogoutFromAllDevices | src/modules/auth/auth.service.ts:209-211 | Same result and store as `LogoutFromAllDevicesSpec`. |
| Auth.AuthService.SendVerificationCodeByEmail | src/modules/auth/auth.service.ts:61-76 | The cache and the sent effects are those of `SendVerificationCodeSpec`. |
| Auth.AuthService.ResetPassword | src/modules/auth/auth.service.ts:48-59 | Same result, cache and effects as `ResetPasswordSpec`. |
| Auth.AuthService.Registration | src/modules/auth/auth.service.ts:156-170 | On success, the user is stored with the hash in place of the password and returned. When the directory refuses, the error is BadRequest with its message, and no user is added. |
| JwtStrategy.SecretOrKey | src/core/strategies/jwt.strategy.ts:19-35 | A key exactly when the device has a session of the user decoded, without verification, from the token. The key is always the access secret. A token that does not decode fails. |
| JwtStrategy.Validate | src/core/strategies/jwt.strategy.ts:40-47 | Unauthorized exactly when no user has the payload's `_id`. Otherwise returns only `{ userId }`. |
| JwtStrategy.Authenticate | src/core/strategies/jwt.strategy.ts:16-47 | An accepted token verifies under the access secret and has not expired. Its user has a session on the device and exists. |
| AuthProperties.LoggedInUser | src/modules/auth/auth.service.ts:95-100 | The user a successful login is for is a stored user with that login. |
| AuthProperties.WithSessionKeepsBound | src/modules/auth/auth.service.ts:108-118 | A session created with its own user's refresh token keeps every token bound to its session's user. |
| AuthProperties.RotationKeepsBound | src/modules/auth/auth.service.ts:137-147 | Writing a user's new token into one of that user's sessions keeps every token bound. |
| AuthProperties.LoginKeepsBound | src/modules/auth/auth.service.ts:94-154 | Login keeps every stored refresh token bound to its session's user. |
| AuthProperties.DeleteKeepsBound | src/modules/auth/auth.service.ts:198-211 | Logout keeps the remaining tokens bound. |
| AuthProperties.LoginCreatesOneSession | src/modules/auth/auth.service.ts:102-122 | A first login from a device appends exactly one session, holding the returned refresh token. It returns both tokens with their configured lifetimes, over `{ _id }` only. |
| AuthProperties.LoginRotatesInPlace | src/modules/auth/auth.service.ts:123-152 | With a session on the device, login never refuses and never creates a session. The user's first session takes the new token, whatever its device, and every other session is unchanged. |
| AuthProperties.WithSessionKeepsOnePerDevice | src/modules/auth/auth.service.ts:102-118 | Creating a session for a device that has none keeps one session per user and device. |
| AuthProperties.LoginKeepsOnePerDevice | src/modules/auth/auth.service.ts:94-154 | Login as written keeps at most one session per user and device. |
| AuthProperties.LoginIntendedKeepsOnePerDevice | src/modules/auth/auth.service.ts:94-154 | The corrected login keeps at most one session per user and device. |
| AuthProperties.DeleteKeepsOnePerDevice | src/modules/auth/auth.service.ts:198-211 | Both logouts keep at most one session per user and device. |
| AuthProperties.LoginLeavesOneDeviceSession | src/modules/auth/auth.service.ts:94-154 | After a successful login the device has exactly one session of the user. |
| AuthProperties.RefreshSessionUnique | src/modules/auth/auth.service.ts:177-186 | With both invariants, at most one session of a device holds a given refresh token. |
| AuthProperties.RefreshReadsOnlySession | src/modules/auth/auth.service.ts:177-192 | A successful refresh reads the one session of the device holding the token and issues the access token for its user. |
| AuthProperties.RefreshIssuesForSubject | src/modules/auth/auth.service.ts:186-192 | In a bound store, a refresh issues the access token for the refresh token's own user. |
| AuthProperties.RefreshStoredToken | src/modules/auth/auth.service.ts:172-196 | A stored token refreshes on its device exactly until it expires. |
| AuthProperties.FirstLoginThenRefresh | src/modules/auth/auth.service.ts:102-122 | A first login's refresh token refreshes on that device until it expires. |
| AuthProperties.LogoutFromDeviceClears | src/modules/auth/auth.service.ts:198-207 | After logout, the device has no session of the user. |
| AuthProperties.LogoutFromDeviceKeepsOthers | src/modules/auth/auth.service.ts:198-207 | Sessions of every other (device, user) pair are kept, in order. |
| AuthProperties.LogoutTwiceFails | src/core/mongoose/repository/repository.ts:132-139 | A second logout from the same device is NotFound, so logout is not idempotent. |
| AuthProperties.LogoutFromAllDevicesScope | src/modules/auth/auth.service.ts:209-211 | Every session of the user goes. Other users' sessions are kept, in order. |
| AuthProperties.LogoutAllThenRefreshFails | src/modules/auth/auth.service.ts:172-196 | After logout from all devices, no refresh token of the user refreshes on any device. |
| AuthProperties.LogoutRevokesAccess | src/core/strategies/jwt.strategy.ts:30-34 | After logout from a device, no access token of the user passes the guard there. |
| AuthProperties.AccessAfterLogin | src/core/strategies/jwt.strategy.ts:16-47 | A login's access token passes the guard on that device, for that user, exactly until it expires. |
| AuthProperties.ForgedTokenRejected | src/core/strategies/jwt.strategy.ts:31 | A token signed with any other secret is refused. |
| AuthProperties.RefreshTokenIsNotAccess | src/core/strategies/jwt.strategy.ts:31 | With distinct secrets, a refresh token is never accepted as an access token. |
| AuthProperties.KeyIgnoresSignature | src/core/strategies/jwt.strategy.ts:22-28 | The key lookup depends on the decoded payload only, not on the signature. |
| AuthProperties.FindUserByLoginAppend | src/modules/users/users.repository.ts:48-50 | Registering another user does not change who an existing login finds. |
| AuthProperties.RegisteredUserValidates | src/modules/auth/auth.service.ts:156-170 | A user registered under a fresh login validates with the password whose hash was stored. |
| AuthProperties.SendStoresCode | src/modules/auth/auth.service.ts:61-76 | The code stored for the address is 64 hex characters and is mailed to it. Other addresses' codes are untouched. |
| AuthProperties.ResetPasswordOutcome | src/modules/auth/auth.service.ts:48-59 | Success exactly when the code on file equals the supplied one; a missing code never does. A failure changes nothing. A success records the new password and drops only that code. |
| AuthProperties.SendThenReset | src/modules/auth/auth.service.ts:48-76 | The mailed code decodes to the random bytes. Reset succeeds exactly with that code, and replaying the same reset fails. |
| AuthProperties.LatestCodeWins | src/modules/auth/auth.service.ts:67 | A second code for the address supersedes the first. |
| AuthProperties.SecondLoginNotRejected | src/modules/auth/auth.service.ts:123-152 | As written, a second login from a device with a live session succeeds. The intended login refuses it. |
| AuthProperties.LoginIntendedRefusesLiveSession | src/modules/auth/auth.service.ts:124-130 | Corrected login: a live device session is refused with "you are authorized", and nothing changes. |
| AuthProperties.LoginIntendedKeepsBound | src/modules/auth/auth.service.ts:94-154 | Corrected login keeps every token bound. |
| AuthProperties.LoginIntendedThenRefresh | src/modules/auth/auth.service.ts:94-154 | Corrected login: whenever it succeeds, the returned refresh token refreshes on that device until it expires. |
| AuthProperties.RotationStrandsOtherDevice | src/modules/auth/auth.service.ts:142-147 | As written, re-login from device B, where the user's first session is on device A, returns a refresh token that B cannot refresh. |
| AuthProperties.ExpandProjectionLosesColumns | src/core/mongoose/repository/repository.ts:39-46 | As written, projecting ["a","b"] and skipping ["c"] gives `{0: c→0, 1: b→1}`, and "a" is lost. The corrected version gives `{a:1, b:1, c:0}`. |

## Left out

- **Flows that only compose.** `LoginSpec`, `LoginIntended`, `LogoutFromDeviceSpec`, `LogoutFromAllDevicesSpec`, `SendVerificationCodeSpec` and `ResetPasswordSpec` carry no contract of their own. They define the flows, and the `AuthService` methods and the `AuthProperties` lemmas state what they do.
- **`Repository.getById`, `aggregate`, `getMongooseModel`.** None of them is used by the auth flows.
- **`session` query option.** The model is sequential, and the Mongo client session only scopes transactions.
- **`lean()` and `plainToClass`.** These change representation, not contents.
- Repositories.Repository.FindOneOrFail: the NotFound message leaves out the JSON of the filter. It names the model only.
- **Find and FindOne apply the corrected `ExpandProjection`.** Mongo refuses a mixed projection, and that refusal is modelled as an error.
- **Cryptography is abstract.** `jwtService.sign`/`verify`, `jwt.decode`, `bcrypt.hash`/`compare` and `crypto.randomBytes` are not modelled. Their results are parameters, or function values constrained only by `Sound`.
- **Token times are whole seconds.** Clock skew and the `nbf` claim are not modelled.
- Auth.ValidatedUser: drops the top-level password as the code does. Its `_doc` still holds the stored record with the hash, as the Mongoose document does. The model does not claim the hash is unreachable.
- **Cache.** The cache's JSON stringify/parse round trip is treated as the identity. A missing key reads as null, as with the Redis store.
- **Mail I/O.** Sending is recorded as a `Mail` effect. The mailer's unawaited promise and its failure are not modelled.
- **User directory.** `updateUserPasswordByEmail` is recorded as a `PasswordUpdate` effect; the directory filters on a field its schema does not declare.
- Auth.AuthService.Registration: takes the hash and the directory's answer as parameters. The user schema declares `login` without a unique index and `createUser` does not look the login up first, so a duplicate login is accepted and appended; login then validates against the first user with that login (`Auth.ValidateUser`).
- **`googleLogin` and the controller.** Routing, header extraction and the OAuth redirect are not modelled.
- **Missing headers.** ip and ua are opaque strings. A missing header, which Mongoose would drop from the filter, is not modelled.
- **Concurrency.** The race between two concurrent first logins from one device, which can create two sessions for it and so break `OnePerDevice`, is not modelled; the model is sequential.
- **Malformed tokens.** The guard's handling is modelled only as the error raised when a token does not decode. The passport plumbing around it is not.

## Findings

| source | as written | input that shows it | evidently intended | confidence | as-written member | corrected member |
|---|---|---|---|---|---|---|
| src/modules/auth/auth.service.ts:123-152 | `verify` is applied to `refreshSession.refreshToken`, but `refreshSession` is an array, so the property is undefined and verify throws. Even if verify passed, the "you are authorized" throw is inside the same `try`. The `catch` always issues a new pair, so a login with a live session never fails. | Log in, then log in again from the same ip and user-agent before the refresh token expires. The second call succeeds. | Refuse the login with BadRequest("you are authorized") while the device's session token is live. | medium, not executed | AuthProperties.SecondLoginNotRejected | Auth.LoginIntended, with AuthProperties.LoginIntendedRefusesLiveSession |
| src/modules/auth/auth.service.ts:142-147 | The rotation writes the new refresh token into the user's first session by `userId` alone, whatever its device. | Sessions on device A, then device B, with B's token older. Log in again from B. The new token lands in A's record, and refreshing it from B fails. | Rotate the session of the device that logged in. | high, not executed | AuthProperties.RotationStrandsOtherDevice | Auth.LoginIntended, with AuthProperties.LoginIntendedThenRefresh |
| src/core/mongoose/repository/repository.ts:39-46 | `include` and `exclude` are arrays of one-key objects, and spreading them into one object copies them by index. | projectColumns ["a","b"], skipColumns ["c"] gives `{0:{c:0}, 1:{b:1}}`. | `{a:1, b:1, c:0}`: column names as keys. | high, not executed | Repositories.ExpandProjectionAsWritten, with AuthProperties.ExpandProjectionLosesColumns | Repositories.ExpandProjection |

`Auth.AuthService.Login` and `Auth.LoginSpec` keep the login as written, because the model follows the code. `Auth.LoginIntended` is the corrected login, and the lemmas named in the last column prove its intended properties.

Two behaviours of the code a reader may not expect, which the model keeps:

- Logout from a device with no session raises NotFound, because `deleteRefreshSessionById` goes through the repository's existence-checked `delete` (src/modules/refresh-session/application/refresh-session.service.ts:17-19, src/core/mongoose/repository/repository.ts:132-139). Logout is therefore not idempotent (`LogoutTwiceFails`).
- A login from a device with a session always rotates and is never refused (src/modules/auth/auth.service.ts:123-152; first finding above).
