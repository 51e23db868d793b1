# SecurityUtil: the auction service's authorization layer

The auction bid service keeps the principal of the current request in the
security-context slot (`SecurityContextHolder`). `SecurityUtil` reads that
principal and provides:

- `checkAccount(id)`: lets a request through only when `id` is non-null and
  numerically equal to the principal's account id. Otherwise it throws
  `AccessDeniedException`.
- `checkAuthToken(token)`: the same rule for the session token, using exact
  string equality.
- Accessors for the principal's account id, token and username.
- `setPhonySecurityContext()`: replaces the context with a bootstrap identity
  for internal work. The identity is user "initializationUser", account 1,
  enabled, with the single authority "watcher". Its principal is rebuilt with
  a new random token every time it is read.

The model has two modules:

- `TokenOracle` (`token_oracle.dfy`) stands in for `UUID.randomUUID()`. Its
  n-th value is `FreshToken(n)`. The model relies only on the fact that two
  different draws never return the same string (`FreshTokenInjective`).
- `Security` (`security_util.dfy`) holds the data types: `Principal`
  (the `CustomUser` record), `Authentication`, `Context` (an ordinary context
  that may hold no authentication, or the bootstrap context) and the
  `Outcome`/`Result` of a call. It also holds:
  - specification functions that say what one call observes, given the
    context and the number of tokens drawn so far;
  - the class `SecurityUtil`, whose fields are the context slot (`context`)
    and the generator's state (`issued`), and whose methods are proved
    against those functions;
  - lemmas about the functions;
  - client methods that derive the promised behaviour from the method
    contracts alone.

A thrown `AccessDeniedException` becomes `Fail(AccessDenied)`. A read of a
slot with no authentication fails in the source with a
`NullPointerException`, which becomes `Fail(NoAuthentication)` (or
`Failure(NoAuthentication)` for an accessor). A null argument is `None`.

## Model

| member | source | states |
|---|---|---|
| TokenOracle.HexDigit | auctionBidService/src/main/java/com/vmware/weathervane/auction/security/SecurityUtil.java:104 | every digit the stand-in token encoding writes decodes back to its value |
| TokenOracle.Hex | auctionBidService/src/main/java/com/vmware/weathervane/auction/security/SecurityUtil.java:104 | the stand-in encoding of a draw number is non-empty, has one digit exactly when the number is below 16, and ends in the digit of the number mod 16 (the facts its injectivity proof needs) |
| TokenOracle.HexInjective | auctionBidService/src/main/java/com/vmware/weathervane/auction/security/SecurityUtil.java:104 | two draw numbers with the same token are equal |
| TokenOracle.FreshToken | auctionBidService/src/main/java/com/vmware/weathervane/auction/security/SecurityUtil.java:104 | the value `UUID.randomUUID().toString()` gives on the n-th draw is a non-empty string |
| TokenOracle.FreshTokenInjective | auctionBidService/src/main/java/com/vmware/weathervane/auction/security/SecurityUtil.java:104 | two draws give the same token exactly when they are the same draw, so every `UUID.randomUUID()` value is fresh |
| Security.BootstrapPrincipal | auctionBidService/src/main/java/com/vmware/weathervane/auction/security/SecurityUtil.java:104 | the bootstrap `CustomUser` has username "initializationUser", password "none", is enabled, has the single authority "watcher", account 1 and the token it was given |
| Security.GetAuthentication | auctionBidService/src/main/java/com/vmware/weathervane/auction/security/SecurityUtil.java:130-133 | the bootstrap context always returns its own authentication; an ordinary context returns what it stores |
| Security.WithAuthentication | auctionBidService/src/main/java/com/vmware/weathervane/auction/security/SecurityUtil.java:126-128 | an ordinary context then returns the authentication it was given; the bootstrap context is left exactly as it was (the setter is a no-op) |
| Security.Draws | auctionBidService/src/main/java/com/vmware/weathervane/auction/security/SecurityUtil.java:95-105 | one principal read draws at most one token, and draws one exactly when the context is the bootstrap one (or an ordinary context holding the bootstrap authentication) |
| Security.PrincipalOf | auctionBidService/src/main/java/com/vmware/weathervane/auction/security/SecurityUtil.java:67-70 | a principal read fails (with NoAuthentication) exactly when the context holds no authentication; a context holding a user's authentication returns that stored principal; under the bootstrap context it succeeds and carries the token of the current draw |
| Security.AccountOf | auctionBidService/src/main/java/com/vmware/weathervane/auction/security/SecurityUtil.java:43-45 | the account id is the principal's; the read fails exactly when the principal read fails, and then with NoAuthentication |
| Security.TokenOf | auctionBidService/src/main/java/com/vmware/weathervane/auction/security/SecurityUtil.java:59-61 | the token is the principal's; the read fails exactly when the principal read fails, and then with NoAuthentication |
| Security.UsernameOf | auctionBidService/src/main/java/com/vmware/weathervane/auction/security/SecurityUtil.java:63-65 | the username is the principal's; the read fails exactly when the principal read fails, and then with NoAuthentication |
| Security.CheckDraws | auctionBidService/src/main/java/com/vmware/weathervane/auction/security/SecurityUtil.java:48-54 | a check with a null argument draws no token, because the `||` short-circuit skips the read; a non-null one draws what one principal read draws |
| Security.CompareLong | auctionBidService/src/main/java/com/vmware/weathervane/auction/security/SecurityUtil.java:48 | `compareTo` is zero exactly for equal values and negative exactly when the first is smaller |
| Security.AccountDecision | auctionBidService/src/main/java/com/vmware/weathervane/auction/security/SecurityUtil.java:47-51 | a check passes iff the id is non-null and equal to the principal's account id; a null id is AccessDenied even with an empty slot; a non-null id with an empty slot fails with NoAuthentication; with an authentication present every failure is AccessDenied |
| Security.TokenDecision | auctionBidService/src/main/java/com/vmware/weathervane/auction/security/SecurityUtil.java:53-57 | a check passes iff the token is non-null and string-equal to the principal's token; a null token is AccessDenied even with an empty slot; a non-null token with an empty slot fails with NoAuthentication; with an authentication present every failure is AccessDenied |
| Security.SecurityUtil.constructor | auctionBidService/src/main/java/com/vmware/weathervane/auction/security/SecurityUtil.java:68 | the slot starts with an ordinary context that holds no authentication, and no token has been drawn |
| Security.SecurityUtil.SetContext | auctionBidService/src/main/java/com/vmware/weathervane/auction/security/SecurityUtil.java:73 | the new context replaces the old one (last write wins); the generator is untouched |
| Security.SecurityUtil.SetAuthentication | auctionBidService/src/main/java/com/vmware/weathervane/auction/security/SecurityUtil.java:126-128 | the slot becomes `WithAuthentication` of the old context, so under the bootstrap context it is unchanged |
| Security.SecurityUtil.NextToken | auctionBidService/src/main/java/com/vmware/weathervane/auction/security/SecurityUtil.java:104 | returns the next fresh token and advances the generator by one |
| Security.SecurityUtil.GetPrincipal | auctionBidService/src/main/java/com/vmware/weathervane/auction/security/SecurityUtil.java:67-70 | returns `PrincipalOf` the current context; the slot is unchanged; one token is drawn exactly when the context is the bootstrap one |
| Security.SecurityUtil.GetAccountFromPrincipal | auctionBidService/src/main/java/com/vmware/weathervane/auction/security/SecurityUtil.java:43-45 | returns `AccountOf` the current context; the slot is unchanged |
| Security.SecurityUtil.GetAuthToken | auctionBidService/src/main/java/com/vmware/weathervane/auction/security/SecurityUtil.java:59-61 | returns `TokenOf` the current context; the slot is unchanged |
| Security.SecurityUtil.GetUsernameFromPrincipal | auctionBidService/src/main/java/com/vmware/weathervane/auction/security/SecurityUtil.java:63-65 | returns `UsernameOf` the current context; the slot is unchanged |
| Security.SecurityUtil.CheckAccount | auctionBidService/src/main/java/com/vmware/weathervane/auction/security/SecurityUtil.java:47-51 | returns `AccountDecision`; the slot is unchanged after a pass or a denial; a null id draws no token because the context is not read |
| Security.SecurityUtil.CheckAuthToken | auctionBidService/src/main/java/com/vmware/weathervane/auction/security/SecurityUtil.java:53-57 | returns `TokenDecision`; the slot is unchanged after a pass or a denial; a null token draws no token because the context is not read |
| Security.SecurityUtil.SetPhonySecurityContext | auctionBidService/src/main/java/com/vmware/weathervane/auction/security/SecurityUtil.java:72-135 | the prior context is replaced by the bootstrap context |
| Security.BootstrapIdentity | auctionBidService/src/main/java/com/vmware/weathervane/auction/security/SecurityUtil.java:95-105 | every bootstrap principal read gives username "initializationUser", account 1, enabled, authorities ["watcher"] and the token of that draw |
| Security.UserReads | auctionBidService/src/main/java/com/vmware/weathervane/auction/security/SecurityUtil.java:43-65 | with principal `p` installed, `getAccountFromPrincipal`, `getAuthToken` and `getUsernameFromPrincipal` return `p`'s account id, token and username |
| Security.DrawsMatchFreshReads | auctionBidService/src/main/java/com/vmware/weathervane/auction/security/SecurityUtil.java:67-70 | a read that draws no token observes the same principal whatever the generator's state; a read that draws one observes a different principal at every generator state |
| Security.BootstrapAccountDecision | auctionBidService/src/main/java/com/vmware/weathervane/auction/security/SecurityUtil.java:96-104 | under the bootstrap context `checkAccount(b)` passes iff `b` is 1; any other id, null included, is AccessDenied |
| Security.BootstrapTokensDistinct | auctionBidService/src/main/java/com/vmware/weathervane/auction/security/SecurityUtil.java:104 | two bootstrap token reads at different generator states give different tokens |
| Security.BootstrapDeniesIssuedTokens | auctionBidService/src/main/java/com/vmware/weathervane/auction/security/SecurityUtil.java:53-57 | under the bootstrap context `checkAuthToken` denies every token the generator has already handed out |
| Security.UserDecisions | auctionBidService/src/main/java/com/vmware/weathervane/auction/security/SecurityUtil.java:47-57 | with a principal installed, the checks pass for exactly its account id and token; every other argument, null included, is AccessDenied |
| Security.PhonyKeepsIdentity | auctionBidService/src/main/java/com/vmware/weathervane/auction/security/SecurityUtil.java:126-128 | `setAuthentication` on the bootstrap context cannot change the principal a read observes |
| Security.BootstrapReadBack | auctionBidService/src/main/java/com/vmware/weathervane/auction/security/SecurityUtil.java:53-61 | a caller who installs the bootstrap context, reads its token and presents that token is denied |
| Security.AuthenticatedRequest | auctionBidService/src/main/java/com/vmware/weathervane/auction/security/SecurityUtil.java:47-57 | for account 42 with token "abc": checks of 42 and "abc" pass; checks of 43, "xyz" and a null id are AccessDenied |
| Security.ReplaceThenCheck | auctionBidService/src/main/java/com/vmware/weathervane/auction/security/SecurityUtil.java:47-51 | after installing principals p1 and then p2, `checkAccount(p1.accountId)` passes iff p1 and p2 share the account id, and is AccessDenied otherwise |
| Security.EmptySlot | auctionBidService/src/main/java/com/vmware/weathervane/auction/security/SecurityUtil.java:47-57 | with the slot empty, null arguments are AccessDenied and non-null arguments fail with NoAuthentication |

## Left out

- Thread-local scoping of `SecurityContextHolder` and isolation between concurrent requests. The model has one slot for one logical operation.
- `SecurityContextHolder.clearContext()` is not called in this file. Clearing is the same as `SetContext(EmptyContext)`.
- Randomness of `UUID.randomUUID()`. The generator is an oracle that hands out distinct values, counted by `issued`. Because of this, the model can predict the next bootstrap token, while a real UUID cannot be guessed (only with negligible probability). What the model proves is that every token already handed out, including one a caller just read back, is denied.
- The stub methods of the bootstrap `Authentication` (`getName`, `setAuthenticated`, `isAuthenticated`, `getDetails`, `getCredentials`, `getAuthorities`, lines 77-123). They return null or false or do nothing, and nothing in the core calls them.
- The internals of `CustomUser`, which is not part of this model. The principal is a plain record whose fields are never null. So the model does not cover a null account id, which makes `compareTo` throw a `NullPointerException` in `checkAccount`. It also does not cover a null stored token: then `getAuthToken` returns null, and every `checkAuthToken` is denied because `equals(null)` is false. Nor does it cover a `ClassCastException` from a principal that is not a `CustomUser`.
- The text format of the bootstrap token. A real token is a 36-character UUID string with dashes. The stand-in `FreshToken` writes the draw number in hexadecimal, and the model relies only on different draws giving different tokens.
- Java exception types. Every read of a slot with no authentication is the single failure `NoAuthentication`.
- The mapping of `AccessDeniedException` to HTTP responses, the authentication pipeline that installs real principals, and persistence. These are external collaborators.
