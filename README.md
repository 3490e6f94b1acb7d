# Access guard and user entity, modelled in Dafny

This project models the request guard of a NestJS backend and the `User`
entity it relies on.

The guard (`AuthGuard.canActivate`) runs before every route. It decides in six steps:

1. A route marked public is let through untouched.
2. The bearer token is taken from the `authorization` header. When that header is absent or empty, it is taken from `x-access-token` instead.
3. The token is verified with the configured `JWT_SECRET`, and the decoded payload must be an object with `userId` and `userRole`.
4. The user is looked up in the store by `userId`.
5. When the route lists required roles, the token's `userRole` must be one of them.
6. `{userId, userName, userRole}` is attached to the request as `request.user`.

A missing token is rejected at once with its own 401. Every later failure goes through a `catch` that sorts errors by name and by `instanceof ForbiddenException`.

The entity module models the closed `UserRole` and `UserStatus` enumerations and the `User` record. The field constraints declared by its validation decorators are one predicate, `ValidUser`.

Files:

- `wrappers.dfy`: `Option` and `Result`.
- `js_strings.dfy`: JavaScript's `split` with a one-character separator, its `join`, and both round trips.
- `user_entity.dfy`: the enumerations, the `User` record and its validator.
- `guards.dfy`:
  - the guard's steps as functions;
  - `Authorize`, the whole decision as one function;
  - the classes `Request` and `AuthGuard`. `AuthGuard.CanActivate` runs the steps imperatively, returns `Authorize`'s answer, and assigns `request.user`.
- `guard_properties.dfy`: the lemmas about the decision.

Collaborators are inputs:

- The route metadata is a `RouteMetadata(isPublic, roles)` value.
- `JWT_SECRET` is an `Option<string>`.
- The token library's `verify` is a function from token and secret to `Decoded(json)` or `VerifyThrew(errorName)`.
- The store's `selectWithAndOne` is a function from the query filter to `Found(record)`, `NotFound` or `LookupThrew(errorName)`.

Properties about which collaborator is asked what are stated as independence lemmas. Two verifiers, or two stores, that agree on the one question the guard asks give the same decision.

The model follows the code in these places, where a reader might expect otherwise:

- A missing or empty `JWT_SECRET` is the generic 401 "Failed to authenticate token.", not a server error. The `UnauthorizedException` thrown in `verifyToken` is caught and reclassified.
- A store error is also caught. It does not propagate as a server error. Because the `catch` dispatches on the error's name, a store error named `TokenExpiredError` or `JsonWebTokenError` gets the expired-token or invalid-token 401. Every other store error gets the generic 401.
- A malformed payload, an unknown user and a missing secret all show the same generic 401. There is no separate client-visible kind for each.
- The token's `userRole` is never checked against the `UserRole` enumeration. It is cast, compared with `===` against the route's roles, and attached as it is (`UncheckedRoleClaim`).
- Because the `catch` dispatches on `error.name`, a `NotBeforeError` from the token library is the generic 401, not "Invalid token".

## Model

| member | source | states |
|---|---|---|
| JsStrings.Split | src/app/core/guards/auth.guard.ts:80 | `split(' ')` always yields at least one segment, and no segment contains the separator |
| JsStrings.JoinSplit | src/app/core/guards/auth.guard.ts:80 | joining the segments of `split` with the separator gives back the header exactly |
| JsStrings.SplitJoin | src/app/core/guards/auth.guard.ts:80 | splitting the join of separator-free segments gives back those segments |
| JsStrings.SplitCons | src/app/core/guards/auth.guard.ts:80 | a separator-free word followed by the separator is split off as the first segment |
| GuardProperties.ParseBearerSome | src/app/core/guards/auth.guard.ts:80-81 | a header yields a token if and only if it starts with `"Bearer "`, case-sensitive, with one space |
| GuardProperties.ParseBearerToken | src/app/core/guards/auth.guard.ts:80-81 | the token is the space-free run right after `"Bearer "`, followed by the end or a space |
| GuardProperties.ParseBearerOf | src/app/core/guards/auth.guard.ts:80-81 | conversely, `"Bearer "` plus a space-free word plus nothing or a space yields exactly that word |
| GuardProperties.SchemeWithoutToken | src/app/core/guards/auth.guard.ts:80-81 | `"Bearer"` alone yields no token (the second segment is undefined) |
| GuardProperties.SchemeIsCaseSensitive | src/app/core/guards/auth.guard.ts:81 | `"bearer x"` yields no token |
| GuardProperties.EmptyTokens | src/app/core/guards/auth.guard.ts:80-81 | `"Bearer "` and `"Bearer  x"` yield the empty token |
| GuardProperties.SecondSegmentOnly | src/app/core/guards/auth.guard.ts:80-81 | only the second segment is the token; `"Bearer abc def"` yields `"abc"` |
| GuardProperties.AuthorizationHeaderDecides | src/app/core/guards/auth.guard.ts:78-83 | a non-empty `authorization` header alone decides the token, even when malformed; changing or removing `x-access-token` changes nothing |
| GuardProperties.FallbackHeader | src/app/core/guards/auth.guard.ts:78-90 | `x-access-token` is parsed only when `authorization` is absent or empty; with neither there is no token |
| GuardProperties.DecisionIgnoresFallbackHeader | src/app/core/guards/auth.guard.ts:78-90 | with a non-empty `authorization` header the whole decision is independent of `x-access-token` |
| GuardProperties.PublicBypass | src/app/core/guards/auth.guard.ts:26-29 | a public route is allowed with no identity attached, whatever the headers, secret, verifier and store |
| GuardProperties.AllowWithoutIdentityIffPublic | src/app/core/guards/auth.guard.ts:26-63 | an allow without an attached identity happens if and only if the route is public |
| GuardProperties.MissingToken | src/app/core/guards/auth.guard.ts:33-37 | an absent or empty token on a non-public route is 401 "Authorization token is missing or malformed.", whatever the collaborators answer |
| GuardProperties.MissingTokenExamples | src/app/core/guards/auth.guard.ts:33-37 | no credential headers, `authorization: "Bearer "` and `x-access-token: "Bearer  x"` are each that 401 |
| GuardProperties.ExpiredToken | src/app/core/guards/auth.guard.ts:65-66 | a `TokenExpiredError` from the library is 401 "Authorization token has expired. Please log in again." |
| GuardProperties.InvalidToken | src/app/core/guards/auth.guard.ts:67-68 | a `JsonWebTokenError` from the library is 401 "Invalid token. Please log in again." |
| GuardProperties.MissingSecret | src/app/core/guards/auth.guard.ts:94-97 | an absent or empty secret is the generic 401 "Failed to authenticate token." |
| GuardProperties.BadPayloadShape | src/app/core/guards/auth.guard.ts:99-104 | a decoded value that is not an object holding `userId` and `userRole` is the generic 401 |
| GuardProperties.OtherVerifierError | src/app/core/guards/auth.guard.ts:64-73 | any other library error name is the generic 401 |
| GuardProperties.LookupFailures | src/app/core/guards/auth.guard.ts:43-49 | after verification, an unknown user is the generic 401 whatever the roles, and so is a store error whose name is neither `TokenExpiredError` nor `JsonWebTokenError` |
| GuardProperties.ForbiddenIff | src/app/core/guards/auth.guard.ts:47-54 | 403 happens if and only if: the token verified, the user was found, a role list is present, and the token's `userRole` is not in it |
| GuardProperties.AllowIff | src/app/core/guards/auth.guard.ts:51-63 | an identity is attached if and only if verification, lookup and the role check all pass; the identity is the token's `{userId, userName, userRole}` |
| GuardProperties.VerifiedPayloadAllowed | src/app/core/guards/auth.guard.ts:38-63 | a token the library decodes into an object with both claims, under a configured secret, with a found user and a passing role claim, is admitted with the identity taken from that object |
| GuardProperties.EmptyRolesForbidEveryone | src/app/core/guards/auth.guard.ts:52 | an empty required-roles list rejects every request to a non-public route |
| GuardProperties.IncludesRoleClaim | src/app/core/guards/auth.guard.ts:52 | `includes` holds if and only if the claim is the string value of a `UserRole` on the list |
| GuardProperties.UncheckedRoleClaim | src/app/core/guards/auth.guard.ts:100-101 | with no role list, a verified and found token is allowed whatever its `userRole` holds, and that value is attached |
| GuardProperties.VerifierAskedOnce | src/app/core/guards/auth.guard.ts:93-99 | the decision depends on the token library only through its answer for the presented token and the configured secret |
| GuardProperties.StoreNotAskedOnFailedVerification | src/app/core/guards/auth.guard.ts:39-45 | when verification fails, any two stores give the same decision, so the store is not consulted |
| GuardProperties.StoreAskedByUserId | src/app/core/guards/auth.guard.ts:43-45 | the decision depends on the store only through its answer to exactly `{userId: payload.userId}` |
| GuardProperties.RecordContentIgnored | src/app/core/guards/auth.guard.ts:51-61 | the found record's content plays no part: the role checked and the identity attached come from the token |
| GuardProperties.RejectionsAreFixed | src/app/core/guards/auth.guard.ts:64-74 | every rejection is one of five fixed status/message pairs; internal messages and store errors never reach the caller |
| GuardProperties.AdminScenario | src/app/core/guards/auth.guard.ts:25-63 | a verified `u1`/`admin_user` token is allowed on an `admin_user` route with identity `u1`/`admin_user`, and is 403 on a `public_user` route |
| Guards.Authorize | src/app/core/guards/auth.guard.ts:25-75 | the whole decision: allowing with no identity happens exactly on a public route; an identity is attached only when a token is present; every rejection is 401 or 403; a 403 carries the forbidden message and needs a role list |
| Guards.ExtractTokenFromHeader | src/app/core/guards/auth.guard.ts:77-91 | a token never contains a space; it comes from a `"Bearer "`-prefixed `authorization` header when that header is non-empty, and otherwise from a `"Bearer "`-prefixed `x-access-token` |
| Guards.ParseBearer | src/app/core/guards/auth.guard.ts:80-81 | the token is a space-free string found only in a header that starts with `"Bearer "`; the full characterisation is in `ParseBearerSome`, `ParseBearerToken` and `ParseBearerOf` |
| Guards.SplitPrefix | src/app/core/guards/auth.guard.ts:80-81 | when `split(' ')` yields `Bearer` and a second segment, the header starts with `"Bearer "` followed by that segment |
| Guards.VerifyToken | src/app/core/guards/auth.guard.ts:93-105 | succeeds if and only if the secret is set, the library decodes the token and the decoded value is an object with `userId` and `userRole`, and then the payload is exactly that object; a library error is passed through under its own name; it never throws `ForbiddenException` |
| Guards.CheckShape | src/app/core/guards/auth.guard.ts:100-104 | the decoded value passes if and only if it is an object with `userId` and `userRole` keys, and the payload is that object; a failure is never forbidden and never carries a token-library error name |
| Guards.Attempt | src/app/core/guards/auth.guard.ts:39-63 | the `try` block succeeds if and only if verification succeeds, the user is found and the role check passes; the identity is then the payload's; a forbidden error arises only after verification and a successful lookup |
| Guards.IdentityOf | src/app/core/guards/auth.guard.ts:56-61 | `request.user` holds the payload's `userId` and `userRole`, and its `userName` exactly when the payload has one |
| Guards.UserFilter | src/app/core/guards/auth.guard.ts:43-45 | the store query has the single key `userId`, holding the payload's `userId` |
| Guards.RoleDenied | src/app/core/guards/auth.guard.ts:52 | the role check fails if and only if a role list is present and no listed role's string value equals the claim |
| Guards.Includes | src/app/core/guards/auth.guard.ts:52 | `includes` holds if and only if some listed role's string value equals the claim |
| Guards.Reclassify | src/app/core/guards/auth.guard.ts:64-74 | the `catch` always rejects; 403 if and only if the error is a `ForbiddenException`, whose message is kept; the library's two error names get their own messages; the guard's own 401s become the generic one |
| Guards.AuthGuard.CanActivate | src/app/core/guards/auth.guard.ts:25-75 | returns `Authorize`'s decision; `request.user` becomes the identity on an authenticated allow and is unchanged otherwise, including on the public bypass |
| UserEntity.ParseRole | src/app/features/user/entity/user.entity.ts:3-6 | a role parsed from a string has that string as its value |
| UserEntity.RoleRoundTrip | src/app/features/user/entity/user.entity.ts:3-6 | parsing a role's value gives the role back; a string that fails to parse is no role's value |
| UserEntity.RoleEnumClosed | src/app/features/user/entity/user.entity.ts:3-6 | the role values are exactly `public_user` and `admin_user`, and they are distinct |
| UserEntity.ParseStatus | src/app/features/user/entity/user.entity.ts:8-12 | a status parsed from a string has that string as its value |
| UserEntity.StatusRoundTrip | src/app/features/user/entity/user.entity.ts:8-12 | parsing a status's value gives the status back; a string that fails to parse is no status's value |
| UserEntity.StatusEnumClosed | src/app/features/user/entity/user.entity.ts:8-12 | the status values are exactly `active`, `inactive` and `pending` |
| UserEntity.ValidUser | src/app/features/user/entity/user.entity.ts:14-115 | the declared constraints of every decorated property; a valid user meets each per-property constraint |
| UserEntity.FieldOk | src/app/features/user/entity/user.entity.ts:18-111 | one property's `@Length`, `@IsEmail` or `@IsEnum` check; whenever it holds, that property's `@IsNotEmpty` holds too |
| UserEntity.RoleValue | src/app/features/user/entity/user.entity.ts:3-6 | each role's string value is `public_user` or `admin_user`, and only `PublicUser` has `public_user` |
| UserEntity.StatusValue | src/app/features/user/entity/user.entity.ts:8-12 | each status's string value is `active`, `inactive` or `pending`, and each value belongs to one status |
| UserEntity.FieldsOkValid | src/app/features/user/entity/user.entity.ts:14-111 | meeting every per-property length and enum constraint is enough for validity; each `@IsNotEmpty` is implied |
| UserEntity.Violations | src/app/features/user/entity/user.entity.ts:14-111 | a property is reported if and only if it fails its constraint |
| UserEntity.ValidIffNoViolations | src/app/features/user/entity/user.entity.ts:14-111 | a user is valid if and only if no property is reported |
| UserEntity.UnconstrainedFields | src/app/features/user/entity/user.entity.ts:14-115 | `userId`, `scannedEid`, `letterOfAppointment` and `deletedAt` never affect validity |
| UserEntity.ValidUserBounds | src/app/features/user/entity/user.entity.ts:18-105 | a valid user has these length bounds: `firstName`/`lastName`/`eid` in [2,25], `nic` in [10,12], `mobileNumber` exactly 10, `email` in [8,100] and email-shaped, `password` in [8,50], `streetNumber` in [2,100], `city`/`province` in [2,50]; its role and status are enum values |

## Left out

- The token library's internals are not modelled: signature checking, the `exp` check of section 4.1.4 of RFC 7519, clock access. Verification is an oracle function of token and secret.
- `ConfigService` is not modelled; the secret is an input.
- The MongoDB repository is not modelled (`src/app/shared/repositories/database.repository.ts`). `selectWithAndOne` is an oracle function of the filter. Its logging, the collection name and the other repository methods are left out.
- `Reflector`, `ExecutionContext`, `async`/`Promise` and the HTTP exception classes are left out. Metadata is a value, the asynchronous lookup is an ordinary call, and a thrown HTTP exception is a `Reject(status, message)`.
- The `@Roles` decorator and the `APP_GUARD` registration are wiring without logic. Their only effect is the `roles` input.
- `CreateUserDto` is not modelled. It is a field projection of `User` without `deletedAt`, with no behaviour.
- ExtractTokenFromHeader: JavaScript `null` and `undefined` are both `None`. The source treats them the same, with `!token`.
- Request headers are single strings keyed by lower-case name. The runtime's merging of repeated headers is not modelled.
- JSON numbers in a decoded payload are Dafny reals. Floating-point behaviour is not modelled; no number is compared by the guard.
- UserEntity.ValidUser: `@IsEmail()` is an uninterpreted predicate parameter `isEmail`.
- UserEntity.ValidUser: `@IsString()` and the `Date` fields are reduced to typing. A required `Date` is present or absent; an absent string is read as `""`, which fails the same checks.
- UserEntity.ValidUser: `@Length` counts Dafny characters (Unicode scalar values), which is how the validator counts surrogate pairs. Its separate discounting of variation selectors is not modelled.
