# Token authentication in the Unity Catalog server, modelled in Dafny

This project models the part of the catalog server that decides which signing keys, bearer tokens and principals are accepted. That part does no I/O of its own. The pieces follow the server's own classes:

- **`KeyCache`** (`jwks_cache.dfy`) is the JWKS key cache.
  - It is a class whose contents are a sequence of (key id, key, expiry) entries in access order, eldest first.
  - Entries have a time to live; expired entries are swept on `get` and before `put`.
  - Capacity is bounded with least-recently-used eviction, as the access-ordered `LinkedHashMap` with its `removeEldestEntry` hook does.
- **`RateLimiting`** (`rate_limiter.dfy`) is the per-issuer minimum-interval gate that throttles key fetches.
- **`KeyResolution`** (`key_resolver.dfy`) covers the rest of the key-resolution helper:
  - a cache-first key lookup that applies the rate limiter on every miss;
  - the choice of key source: the local certificates for the internal issuer, otherwise OpenID Connect discovery (`discovery.dfy`, module `Discovery`);
  - the RSA key and algorithm checks;
  - claim extraction into the Azure AD claim record.
- **`AzureClaims`** (`claims.dfy`) and **`Identity`** (`identity.dfy`) are the Azure AD claim record and the user identity built from it: required-claim validation, the `exp`/`nbf` window, the email fallback, null-safe role and group membership, and equality and hash codes over the identifying fields (`java_hash.dfy`, module `JavaHash`, gives Java's hash arithmetic).
- **`TokenService`** (`auth_service.dfy`) is the token-exchange endpoint: the exchange parameter checks, the principal check with Azure user provisioning, Azure AD token validation, and logout.
- **`RequestAuthorization`** (`auth_decorator.dfy`) is the request decorator: the token taken from the Bearer header or the `UC_TOKEN` cookie, the dispatch on the token's issuer, and the attributes stored for the request.
- **`AzureJwt`** (`azure_validator.dfy`) is the tenant-bound Azure AD validator with its issuer and key-set URL templates.
- **`JwksClients`** (`http_client_factory.dfy`) is the selection of the HTTP client implementation from configuration.
- **`AdminAllowlist`** (`allowlist.dfy`) and **`Bootstrap`** (`bootstrap.dfy`) are the admin allowlist matcher and the bootstrap step that grants OWNER on the metastore to an allowlisted user.

`Common` (trimming and lower-casing as Java's `String` does them, `Option`/`Result`), `Jose` (decoded tokens, JWKs and the verifier of the JWT library), `ServerHttp` (error codes, cookies, Java's string conversion of null) and `Users` (the user repository as a map from email to user) hold the shared vocabulary.

Everything outside the server is a parameter of the operations that need it. This covers the HTTP fetch of discovery and JWKS documents, the JWK providers, signature checking, `JWT.decode`, token issuing and the clock. Each is a function value, so every property holds whatever those functions answer. Operations that change state (the cache, the limiters, the user store, the grant set) are methods of classes, each proved equal to a specification function on values of the old state.

Where the code and the natural reading of the design differ, the model follows the code:

- The rate limiter is applied on every cache miss, including for the internal issuer.
- `AuthService` never calls the allowlist validator. The bootstrap grant exists only as the helper `checkAdminAllowlistAndGrant` of `AuthServiceAdminAllowlistTest`, and it is modelled from there.
- The "User not allowed" refusal of an internal principal is INVALID_ARGUMENT in the token exchange but PERMISSION_DENIED in the request decorator. The exchange also accepts the principal "admin" unconditionally, while the decorator has no such shortcut.
- `validateAzureAdToken` refuses `sts.windows.net` issuers, although the issuer routing of `verifyPrincipal` and `validateIssuer` treat them as Azure. The token exchange itself verifies such tokens like any other and provisions them as Azure users.
- The request decorator does not trim the Bearer prefix. The client factory lower-cases its setting but does not trim it.

## Model

| member | source | states |
|---|---|---|
| KeyCache.RemoveKey | server/src/main/java/io/unitycatalog/server/security/jwt/JwksCache.java:142-157 | removal never lengthens the entries; RemoveKeyMembers, RemoveKeyDropsKey and RemoveKeyDistinct state that exactly the entries of other ids stay, in order, and that ids stay distinct |
| KeyCache.GetValue | server/src/main/java/io/unitycatalog/server/security/jwt/JwksCache.java:73-105 | no contract of its own; GetNeverReturnsExpired, GetDropsExpired, GetMissChangesNothing and KeyCache.JwksCache.Get state what get returns |
| KeyCache.AfterGet | server/src/main/java/io/unitycatalog/server/security/jwt/JwksCache.java:73-105 | no contract of its own; GetMovesToEnd, GetDropsExpired and AfterGetInvariant state the entries after get |
| KeyCache.Insert | server/src/main/java/io/unitycatalog/server/security/jwt/JwksCache.java:54-64 | no contract of its own; PutEvictsEldest, PutReplaceEvictsNothing and InsertKeepsNewest state the access-ordered put with the eldest-entry eviction |
| KeyCache.AfterPut | server/src/main/java/io/unitycatalog/server/security/jwt/JwksCache.java:113-134 | no contract of its own; AfterPutInvariant, PutThenGet and PutLeavesNothingExpired state the entries after put |
| KeyCache.RemoveKeyMembers | server/src/main/java/io/unitycatalog/server/security/jwt/JwksCache.java:142-157 | removing a key keeps exactly the entries with other ids |
| KeyCache.RemoveKeyAbsent | server/src/main/java/io/unitycatalog/server/security/jwt/JwksCache.java:142-153 | removing an absent key leaves the entries unchanged |
| KeyCache.RemoveKeyShrinks | server/src/main/java/io/unitycatalog/server/security/jwt/JwksCache.java:149 | removing a present key shrinks the cache |
| KeyCache.RemoveKeyBy1 | server/src/main/java/io/unitycatalog/server/security/jwt/JwksCache.java:149 | with distinct ids, removing a present key drops exactly one entry |
| KeyCache.RemoveKeyDistinct | server/src/main/java/io/unitycatalog/server/security/jwt/JwksCache.java:142-157 | removal keeps the ids distinct |
| KeyCache.RemoveExpired | server/src/main/java/io/unitycatalog/server/security/jwt/JwksCache.java:208-219 | the sweep keeps exactly the live entries |
| KeyCache.RemoveExpiredDistinct | server/src/main/java/io/unitycatalog/server/security/jwt/JwksCache.java:208-219 | the sweep keeps the ids distinct |
| KeyCache.RemoveExpiredKeepsLiveLast | server/src/main/java/io/unitycatalog/server/security/jwt/JwksCache.java:208-219 | the sweep keeps the order of the surviving entries |
| KeyCache.CountExpired | server/src/main/java/io/unitycatalog/server/security/jwt/JwksCache.java:193 | the expired count is at most the size |
| KeyCache.ExpiredPlusLive | server/src/main/java/io/unitycatalog/server/security/jwt/JwksCache.java:193-200 | expired count plus live entries is the size, so activeCount counts the live keys |
| KeyCache.GetNeverReturnsExpired | server/src/main/java/io/unitycatalog/server/security/jwt/JwksCache.java:86-101 | get returns only a live key, and it is the one stored under the id |
| KeyCache.GetDropsExpired | server/src/main/java/io/unitycatalog/server/security/jwt/JwksCache.java:86-97 | an expired entry found by get is removed, nothing else is, and get returns empty |
| KeyCache.RemoveKeyDropsKey | server/src/main/java/io/unitycatalog/server/security/jwt/JwksCache.java:92 | no entry for the id remains after its removal |
| KeyCache.GetMissChangesNothing | server/src/main/java/io/unitycatalog/server/security/jwt/JwksCache.java:74-84 | get of a null, blank or absent id returns empty and changes nothing |
| KeyCache.GetMovesToEnd | server/src/main/java/io/unitycatalog/server/security/jwt/JwksCache.java:55-101 | a live hit becomes the most recently used entry (access order) |
| KeyCache.AfterGetInvariant | server/src/main/java/io/unitycatalog/server/security/jwt/JwksCache.java:73-105 | get keeps distinct ids, the TTL of every entry and the size bound |
| KeyCache.AfterPutInvariant | server/src/main/java/io/unitycatalog/server/security/jwt/JwksCache.java:113-134 | put keeps the invariant; in particular size never exceeds maxKeys |
| KeyCache.PutThenGet | server/src/main/java/io/unitycatalog/server/security/jwt/JwksCache.java:100-129 | a get right after a put of the same id returns the key just stored |
| KeyCache.PutLeavesNothingExpired | server/src/main/java/io/unitycatalog/server/security/jwt/JwksCache.java:127-129 | after put no entry is expired at that second |
| KeyCache.PutEvictsEldest | server/src/main/java/io/unitycatalog/server/security/jwt/JwksCache.java:54-64 | a new key into a full cache evicts the least recently used entry |
| KeyCache.PutReplaceEvictsNothing | server/src/main/java/io/unitycatalog/server/security/jwt/JwksCache.java:54-64 | re-putting a present key evicts no other live entry |
| KeyCache.InsertKeepsNewest | server/src/main/java/io/unitycatalog/server/security/jwt/JwksCache.java:54-64 | putting another key, with room for two, never evicts the most recently used entry |
| KeyCache.GetProtectsFromEviction | server/src/main/java/io/unitycatalog/server/security/jwt/JwksCache.java:55-80 | a key read by get survives the next put of another key |
| KeyCache.RemoveOnlyRemovesThatKey | server/src/main/java/io/unitycatalog/server/security/jwt/JwksCache.java:142-157 | remove drops its key and leaves every other entry as it was |
| KeyCache.JwksCache.constructor | server/src/main/java/io/unitycatalog/server/security/jwt/JwksCache.java:41-65 | an empty cache with the given TTL and capacity |
| KeyCache.JwksCache.Create | server/src/main/java/io/unitycatalog/server/security/jwt/JwksCache.java:41-47 | a non-positive TTL, then a non-positive capacity, is refused; otherwise an empty cache |
| KeyCache.JwksCache.Get | server/src/main/java/io/unitycatalog/server/security/jwt/JwksCache.java:73-105 | the result and the new entries are those of the get specification |
| KeyCache.JwksCache.CleanupExpiredEntries | server/src/main/java/io/unitycatalog/server/security/jwt/JwksCache.java:208-219 | the entries become the live ones, in order |
| KeyCache.JwksCache.Put | server/src/main/java/io/unitycatalog/server/security/jwt/JwksCache.java:113-134 | a null or blank id, then a null key, is refused with nothing changed; otherwise sweep, then insert with expiry now + ttl |
| KeyCache.JwksCache.InsertEntry | server/src/main/java/io/unitycatalog/server/security/jwt/JwksCache.java:54-64 | access-ordered put with the removeEldestEntry hook |
| KeyCache.JwksCache.Remove | server/src/main/java/io/unitycatalog/server/security/jwt/JwksCache.java:142-157 | true exactly when the key was present; a null or blank id changes nothing |
| KeyCache.JwksCache.Clear | server/src/main/java/io/unitycatalog/server/security/jwt/JwksCache.java:160-168 | the cache becomes empty |
| KeyCache.JwksCache.Size | server/src/main/java/io/unitycatalog/server/security/jwt/JwksCache.java:175-182 | the number of entries, expired ones included |
| KeyCache.JwksCache.GetStats | server/src/main/java/io/unitycatalog/server/security/jwt/JwksCache.java:189-205 | size, ttl, capacity, expired count, and active count as the live entries |
| AdminAllowlist.NormalizeEmail | server/src/main/java/io/unitycatalog/server/utils/AdminAllowlistValidator.java:22-27 | no contract of its own; NormalizedIsCanonical, NormalizeIdempotent and NormalizeEmptyIffNullOrBlank state that the result is trimmed, lower-cased, stable and empty exactly for null or blank input |
| AdminAllowlist.IsValidDomain | server/src/main/java/io/unitycatalog/server/utils/AdminAllowlistValidator.java:35-40 | no contract of its own; IsValidDomainIffAt states it as a non-empty trim starting with @ |
| AdminAllowlist.MatchesExact | server/src/main/java/io/unitycatalog/server/utils/AdminAllowlistValidator.java:60-64 | no contract of its own; ExactListMatches and ExactEntryMatchesItsSpellings state the exact loop |
| AdminAllowlist.MatchesDomain | server/src/main/java/io/unitycatalog/server/utils/AdminAllowlistValidator.java:69-74 | no contract of its own; MatchesDomainIff, DomainListMatches and SubdomainDoesNotMatch state the domain loop |
| AdminAllowlist.NormalizedIsCanonical | server/src/main/java/io/unitycatalog/server/utils/AdminAllowlistValidator.java:22-27 | a normalised address is its own trim and lower-case form |
| AdminAllowlist.NormalizeIdempotent | server/src/main/java/io/unitycatalog/server/utils/AdminAllowlistValidator.java:22-27 | normalising twice is normalising once |
| AdminAllowlist.NormalizeEmptyIffNullOrBlank | server/src/main/java/io/unitycatalog/server/utils/AdminAllowlistValidator.java:22-27 | null or blank exactly when the normal form is empty |
| AdminAllowlist.IsValidDomainIffAt | server/src/main/java/io/unitycatalog/server/utils/AdminAllowlistValidator.java:35-40 | a valid domain is one whose trim is non-empty and starts with '@' |
| AdminAllowlist.ExactListMatches | server/src/main/java/io/unitycatalog/server/utils/AdminAllowlistValidator.java:59-65 | the exact loop succeeds iff some entry normalises to the address |
| AdminAllowlist.DomainListMatches | server/src/main/java/io/unitycatalog/server/utils/AdminAllowlistValidator.java:68-75 | the domain loop succeeds iff some normalised valid domain entry ends the address |
| AdminAllowlist.IsEmailInAllowlist | server/src/main/java/io/unitycatalog/server/utils/AdminAllowlistValidator.java:50-78 | null or blank is never in; otherwise in iff an exact entry or a domain entry matches, null lists matching nothing |
| AdminAllowlist.MatchesDomainIff | server/src/main/java/io/unitycatalog/server/utils/AdminAllowlistValidator.java:70-71 | a domain entry matches iff, normalised, it starts with '@' and ends the address |
| AdminAllowlist.EmptyAllowlistMatchesNothing | server/src/main/java/io/unitycatalog/server/utils/AdminAllowlistValidator.java:59-77 | with both lists empty or null nothing matches |
| AdminAllowlist.DecisionDependsOnNormalizedEmail | server/src/main/java/io/unitycatalog/server/utils/AdminAllowlistValidator.java:52-56 | case and surrounding whitespace of the address never change the decision |
| AdminAllowlist.ExactEntryMatchesItsSpellings | server/src/main/java/io/unitycatalog/server/utils/AdminAllowlistValidator.java:59-65 | an exact entry matches every spelling of itself up to case and surrounding blanks |
| AdminAllowlist.AllowlistMonotone | server/src/main/java/io/unitycatalog/server/utils/AdminAllowlistValidator.java:59-77 | adding entries never turns a match into a non-match |
| AdminAllowlist.NormalizeExamples | server/src/test/java/io/unitycatalog/server/utils/AdminAllowlistValidatorTest.java:14-24 | mixed case folds down; tab and newline are trimmed |
| AdminAllowlist.SubdomainDoesNotMatch | server/src/test/java/io/unitycatalog/server/utils/AdminAllowlistValidatorTest.java:67-74 | user@sub.company.com is not admitted by @company.com |
| AdminAllowlist.ExactDomainMatches | server/src/test/java/io/unitycatalog/server/utils/AdminAllowlistValidatorTest.java:75-78 | user@company.com is admitted by @company.com |
| RateLimiting.DefaultInterval | server/src/main/java/io/unitycatalog/server/utils/JwksOperations.java:62-82 | ten requests a minute space grants 6000 ms apart |
| RateLimiting.Acquire | server/src/main/java/io/unitycatalog/server/utils/JwksOperations.java:84-91 | granted iff the interval has passed; only a grant moves the last time to now |
| RateLimiting.Run | server/src/main/java/io/unitycatalog/server/utils/JwksOperations.java:84-91 | one answer per request |
| RateLimiting.GrantAfterStart | server/src/main/java/io/unitycatalog/server/utils/JwksOperations.java:77-87 | every grant comes at least one interval after the starting time |
| RateLimiting.GrantsAreSpaced | server/src/main/java/io/unitycatalog/server/utils/JwksOperations.java:84-91 | two grants of one limiter are at least one interval apart |
| RateLimiting.FirstRequestGranted | server/src/main/java/io/unitycatalog/server/utils/JwksOperations.java:77-87 | from the initial 0 a request one interval after the epoch is granted |
| RateLimiting.RateLimiter.constructor | server/src/main/java/io/unitycatalog/server/utils/JwksOperations.java:77-82 | last time 0, interval 60000 / rate |
| RateLimiting.RateLimiter.TryAcquire | server/src/main/java/io/unitycatalog/server/utils/JwksOperations.java:84-91 | the grant and the new last time are those of Acquire |
| Discovery.NormalizeIssuer | server/src/main/java/io/unitycatalog/server/utils/JwksOperations.java:186-188 | an issuer without https:// or http:// gets https:// in front; the result has a scheme |
| Discovery.NormalizeIssuerIdempotent | server/src/main/java/io/unitycatalog/server/utils/JwksOperations.java:186-188 | normalising twice is normalising once |
| Discovery.WellKnownConfigUrl | server/src/main/java/io/unitycatalog/server/utils/JwksOperations.java:186-196 | the URL is exactly the normalised issuer, followed by one `/` unless it already ends with one, followed by .well-known/openid-configuration |
| Discovery.TrailingSlashIrrelevant | server/src/main/java/io/unitycatalog/server/utils/JwksOperations.java:192-194 | a trailing '/' on an issuer with a scheme changes nothing |
| Discovery.BareHostExample | server/src/main/java/io/unitycatalog/server/utils/JwksOperations.java:186-196 | a bare host gets https:// and the well-known path |
| Discovery.ConfiguredIssuerExample | server/src/main/java/io/unitycatalog/server/utils/JwksOperations.java:190-196 | an issuer with scheme and trailing '/' is used as it is |
| Discovery.CheckConfiguration | server/src/main/java/io/unitycatalog/server/utils/JwksOperations.java:210-225 | accepted iff the document is non-empty, names the issuer and has a jwks_uri, which is the result |
| Discovery.MismatchReportedFirst | server/src/main/java/io/unitycatalog/server/utils/JwksOperations.java:218-225 | an issuer mismatch is reported even when jwks_uri is missing |
| Jose.Verify | server/src/main/java/io/unitycatalog/server/security/jwt/JwksOperations.java:86-95 | the library verifier accepts exactly a token whose header names the verifier's algorithm, whose signature checks under the key, with an iss claim equal to the required issuer (for a null issuer, an iss that is JSON null), with the required claims, not expired (now < exp + leeway), not before nbf and not issued in the future (now >= iat); the accepted token is the input |
| Jose.LeewayMonotone | server/src/main/java/io/unitycatalog/server/security/jwt/JwksOperations.java:92 | a larger expiry leeway never turns an accepted token into a refused one |
| Jose.IssuedInFutureRefused | server/src/main/java/io/unitycatalog/server/security/jwt/JwksOperations.java:86-95 | a token whose iat lies after the clock is refused, since the library checks iat by default |
| Jose.ExpiryBoundaryRefused | server/src/main/java/io/unitycatalog/server/security/jwt/JwksOperations.java:92 | at exactly exp plus the leeway a token is already refused |
| Jose.NullIssuerAcceptsOnlyNullClaim | server/src/main/java/io/unitycatalog/server/utils/JwksOperations.java:111 | a verifier built with a null issuer accepts, when every other check passes, exactly the tokens whose iss is present and JSON null; no iss gives the missing-claim error and a string iss is refused |
| KeyResolution.LoadJwkProvider | server/src/main/java/io/unitycatalog/server/utils/JwksOperations.java:175-230 | INTERNAL reads the local certificates; any other issuer succeeds only through a matching discovery document, whose jwks_uri is the source |
| KeyResolution.ParseAlgorithm | server/src/main/java/io/unitycatalog/server/utils/JwksOperations.java:165-171 | no contract of its own; ParseAlgorithmRoundTrip states that it inverts the algorithm names |
| KeyResolution.ParseAlgorithmRoundTrip | server/src/main/java/io/unitycatalog/server/utils/JwksOperations.java:165-171 | the algorithm switch inverts the algorithm names, both ways |
| KeyResolution.AlgorithmForJwk | server/src/main/java/io/unitycatalog/server/utils/JwksOperations.java:157-172 | accepted iff the chosen name is RS256, RS384 or RS512; otherwise unsupported, naming it |
| KeyResolution.AlgorithmPrecedence | server/src/main/java/io/unitycatalog/server/utils/JwksOperations.java:159-162 | the key's non-empty alg wins; with neither alg nor hint RS256 is used |
| KeyResolution.IsRsaKey | server/src/main/java/io/unitycatalog/server/utils/JwksOperations.java:103 | no contract of its own; KeyResolution.VerifierForKey states that a key that is not RSA is refused |
| KeyResolution.VerifierForKey | server/src/main/java/io/unitycatalog/server/utils/JwksOperations.java:103-111 | a non-RSA key is refused first; otherwise a verifier for the chosen algorithm and the issuer |
| KeyResolution.VerifierChecksIssuer | server/src/main/java/io/unitycatalog/server/utils/JwksOperations.java:109-111 | such a verifier accepts only tokens from that issuer under the chosen algorithm |
| KeyResolution.GetClaimSafely | server/src/main/java/io/unitycatalog/server/utils/JwksOperations.java:240-246 | a text exactly when token and name are given and the claim is a string |
| KeyResolution.GetClaimListSafely | server/src/main/java/io/unitycatalog/server/utils/JwksOperations.java:256-270 | a list exactly when the claim is an array of strings, item for item |
| KeyResolution.FirstAudience | server/src/main/java/io/unitycatalog/server/utils/JwksOperations.java:288-289 | the first element of the audience list exactly when that list is present and non-empty, otherwise null |
| KeyResolution.ExtractAzureAdClaims | server/src/main/java/io/unitycatalog/server/utils/JwksOperations.java:279-307 | a null token is refused; otherwise every field is read from its claim |
| KeyResolution.DateRoundTrip | server/src/main/java/io/unitycatalog/server/utils/JwksOperations.java:290-292 | milliseconds / 1000 gives back the NumericDate in seconds |
| KeyResolution.ExtractedClaimsValidIff | server/src/main/java/io/unitycatalog/server/utils/JwksOperations.java:279-307 | extracted claims validate iff iss, aud, oid, tid are non-blank strings and exp is a number |
| KeyResolution.FetchAndCache | server/src/main/java/io/unitycatalog/server/utils/JwksOperations.java:145-153 | no contract of its own; FetchedKeyIsCached and KeyResolution.JwksOperations.FetchAndCacheKey state the fetch and the put |
| KeyResolution.ResolveKey | server/src/main/java/io/unitycatalog/server/utils/JwksOperations.java:124-154 | no contract of its own; CacheHitIsIsolated, DeniedMissFetchesNothing, OtherIssuersUntouched, LimiterCreatedLazily, FetchedKeyIsCached and ResolveKeepsCacheInvariant state getJwkWithCache |
| KeyResolution.LimitStep | server/src/main/java/io/unitycatalog/server/utils/JwksOperations.java:136-143 | the request issuer has a limiter afterwards and every other limiter is unchanged |
| KeyResolution.CacheHitIsIsolated | server/src/main/java/io/unitycatalog/server/utils/JwksOperations.java:126-130 | a cache hit returns the cached key whatever the issuer, with no limiter, fetch or provider involved |
| KeyResolution.DeniedMissFetchesNothing | server/src/main/java/io/unitycatalog/server/utils/JwksOperations.java:136-143 | a miss the limiter denies fails ABORTED with the cache unchanged, whatever the network |
| KeyResolution.OtherIssuersUntouched | server/src/main/java/io/unitycatalog/server/utils/JwksOperations.java:136-137 | a request never changes another issuer's limiter |
| KeyResolution.LimiterCreatedLazily | server/src/main/java/io/unitycatalog/server/utils/JwksOperations.java:136-137 | a limiter created by a miss starts at 0 with the configured interval |
| KeyResolution.FetchedKeyIsCached | server/src/main/java/io/unitycatalog/server/utils/JwksOperations.java:146-153 | a fetched key is in the cache when it is returned |
| KeyResolution.ResolveKeepsCacheInvariant | server/src/main/java/io/unitycatalog/server/utils/JwksOperations.java:124-154 | every resolution keeps the cache invariant |
| KeyResolution.JwksOperations.constructor | server/src/main/java/io/unitycatalog/server/utils/JwksOperations.java:46-55 | the given cache and rate, no limiters yet |
| KeyResolution.JwksOperations.LimiterFor | server/src/main/java/io/unitycatalog/server/utils/JwksOperations.java:136-137 | computeIfAbsent: an existing limiter is reused, a missing one created fresh |
| KeyResolution.JwksOperations.TouchLimiter | server/src/main/java/io/unitycatalog/server/utils/JwksOperations.java:84-91 | tryAcquire changes only the issuer's limiter, as Acquire says |
| KeyResolution.JwksOperations.AcquireFor | server/src/main/java/io/unitycatalog/server/utils/JwksOperations.java:136-143 | the limiter step, the cache untouched |
| KeyResolution.JwksOperations.FetchAndCacheKey | server/src/main/java/io/unitycatalog/server/utils/JwksOperations.java:146-150 | the fetch-and-put step |
| KeyResolution.JwksOperations.GetJwkWithCache | server/src/main/java/io/unitycatalog/server/utils/JwksOperations.java:124-154 | the result and the new state are those of the resolution specification |
| KeyResolution.JwksOperations.VerifierForIssuerAndKey | server/src/main/java/io/unitycatalog/server/utils/JwksOperations.java:100-112 | key resolution, then the key type and algorithm checks |
| KeyResolution.DefaultConfigSpacing | server/src/main/java/io/unitycatalog/server/utils/JwksOperations.java:61-71 | the default configuration spaces fetches 6000 ms apart |
| AzureClaims.Validate | server/src/main/java/io/unitycatalog/server/model/AzureAdTokenClaims.java:174-190 | passes iff all required claims are present; otherwise names the first missing one in the order iss, aud, exp, oid, tid |
| AzureClaims.ValidateIgnoresOptionalClaims | server/src/main/java/io/unitycatalog/server/model/AzureAdTokenClaims.java:174-190 | name, email, username, roles, groups, iat, nbf never affect validation |
| AzureClaims.NoClaimsFailOnIssuer | server/src/main/java/io/unitycatalog/server/model/AzureAdTokenClaims.java:174-177 | a fresh record fails on the issuer |
| AzureClaims.IsExpired | server/src/main/java/io/unitycatalog/server/model/AzureAdTokenClaims.java:197-202 | no contract of its own; ExpiryIsPermanent and UsableWindow state that a missing exp is expired and expiry is permanent |
| AzureClaims.IsNotYetValid | server/src/main/java/io/unitycatalog/server/model/AzureAdTokenClaims.java:209-214 | no contract of its own; NotBeforeIsPassedForGood and UsableWindow state the nbf bound |
| AzureClaims.ExpiryIsPermanent | server/src/main/java/io/unitycatalog/server/model/AzureAdTokenClaims.java:197-202 | once expired, always expired (a record without exp is always expired) |
| AzureClaims.NotBeforeIsPassedForGood | server/src/main/java/io/unitycatalog/server/model/AzureAdTokenClaims.java:209-214 | once valid, never again not-yet-valid |
| AzureClaims.UsableWindow | server/src/main/java/io/unitycatalog/server/model/AzureAdTokenClaims.java:197-214 | usable iff exp is present and nbf <= now < exp |
| AzureClaims.HashCode | server/src/main/java/io/unitycatalog/server/model/AzureAdTokenClaims.java:229-231 | an int hash code |
| JavaHash.Utf16Decodes | server/src/main/java/io/unitycatalog/server/model/AzureAdTokenClaims.java:229-231 | the surrogate pair String.hashCode reads for a supplementary character decodes back to that character |
| JavaHash.Utf16EncodeBmp | server/src/main/java/io/unitycatalog/server/model/AzureAdTokenClaims.java:229-231 | a string in the Basic Multilingual Plane is hashed over its own characters, one code unit each |
| JavaHash.StringHashOfChar | server/src/main/java/io/unitycatalog/server/model/AzureAdTokenClaims.java:229-231 | a one-character string of the Basic Multilingual Plane hashes to its character code |
| JavaHash.StringHashOfSupplementary | server/src/main/java/io/unitycatalog/server/model/AzureAdTokenClaims.java:229-231 | U+1F600 hashes as its surrogate pair, 31 * 0xD83D + 0xDE00 |
| AzureClaims.ClaimsEqual | server/src/main/java/io/unitycatalog/server/model/AzureAdTokenClaims.java:217-226 | no contract of its own; EqualClaimsHashEqually, ClaimsEqualIgnoresOtherFields and EqualClaimsValidateAlike state what equality means for the record |
| AzureClaims.EqualClaimsHashEqually | server/src/main/java/io/unitycatalog/server/model/AzureAdTokenClaims.java:216-231 | equal records hash equally |
| AzureClaims.ClaimsEqualIgnoresOtherFields | server/src/main/java/io/unitycatalog/server/model/AzureAdTokenClaims.java:221-225 | equality ignores every field outside the five identifying ones |
| AzureClaims.EqualClaimsValidateAlike | server/src/main/java/io/unitycatalog/server/model/AzureAdTokenClaims.java:216-226 | equal records validate alike |
| AzureClaims.AzureAdTokenClaims.constructor | server/src/main/java/io/unitycatalog/server/model/AzureAdTokenClaims.java:71 | every field null |
| AzureClaims.AzureAdTokenClaims.SetIssuer | server/src/main/java/io/unitycatalog/server/model/AzureAdTokenClaims.java:73-79 | the getters return the new issuer, every other field unchanged |
| AzureClaims.AzureAdTokenClaims.SetAudience | server/src/main/java/io/unitycatalog/server/model/AzureAdTokenClaims.java:81-87 | only the audience changes |
| AzureClaims.AzureAdTokenClaims.SetExpiration | server/src/main/java/io/unitycatalog/server/model/AzureAdTokenClaims.java:89-95 | only the expiration changes |
| AzureClaims.AzureAdTokenClaims.SetIssuedAt | server/src/main/java/io/unitycatalog/server/model/AzureAdTokenClaims.java:97-103 | only iat changes |
| AzureClaims.AzureAdTokenClaims.SetNotBefore | server/src/main/java/io/unitycatalog/server/model/AzureAdTokenClaims.java:105-111 | only nbf changes |
| AzureClaims.AzureAdTokenClaims.SetObjectId | server/src/main/java/io/unitycatalog/server/model/AzureAdTokenClaims.java:113-119 | only the object id changes |
| AzureClaims.AzureAdTokenClaims.SetTenantId | server/src/main/java/io/unitycatalog/server/model/AzureAdTokenClaims.java:121-127 | only the tenant id changes |
| AzureClaims.AzureAdTokenClaims.SetName | server/src/main/java/io/unitycatalog/server/model/AzureAdTokenClaims.java:129-135 | only the name changes |
| AzureClaims.AzureAdTokenClaims.SetEmail | server/src/main/java/io/unitycatalog/server/model/AzureAdTokenClaims.java:137-143 | only the email changes |
| AzureClaims.AzureAdTokenClaims.SetPreferredUsername | server/src/main/java/io/unitycatalog/server/model/AzureAdTokenClaims.java:145-151 | only preferred_username changes |
| AzureClaims.AzureAdTokenClaims.SetRoles | server/src/main/java/io/unitycatalog/server/model/AzureAdTokenClaims.java:153-159 | only the roles change |
| AzureClaims.AzureAdTokenClaims.SetGroups | server/src/main/java/io/unitycatalog/server/model/AzureAdTokenClaims.java:161-167 | only the groups change |
| Identity.FromAzureAdToken | server/src/main/java/io/unitycatalog/server/model/UserIdentity.java:41-55 | null and invalid claims are refused first; otherwise userId = oid, displayName = name, tenantId = tid, roles and groups as given, email falling back to preferred_username only when null |
| Identity.IdentityHash | server/src/main/java/io/unitycatalog/server/model/UserIdentity.java:109-112 | an int hash code |
| Identity.IdentityEquals | server/src/main/java/io/unitycatalog/server/model/UserIdentity.java:102-107 | no contract of its own; EqualIdentitiesHashEqually and EqualClaimsGiveEqualIdentities state what it means for hashing and for identities built from claims |
| Identity.EqualIdentitiesHashEqually | server/src/main/java/io/unitycatalog/server/model/UserIdentity.java:101-112 | equal identities hash equally |
| Identity.EqualClaimsGiveEqualIdentities | server/src/main/java/io/unitycatalog/server/model/UserIdentity.java:41-55 | equal claim records give equal identities or fail alike |
| Identity.HasRole | server/src/main/java/io/unitycatalog/server/model/UserIdentity.java:87-89 | no contract of its own; MembershipFromClaims and NullListsGrantNothing state membership in the token's role list |
| Identity.BelongsToGroup | server/src/main/java/io/unitycatalog/server/model/UserIdentity.java:97-99 | no contract of its own; MembershipFromClaims and NullListsGrantNothing state membership in the token's group list |
| Identity.MembershipFromClaims | server/src/main/java/io/unitycatalog/server/model/UserIdentity.java:87-99 | role and group membership is membership in the token's lists |
| Identity.NullListsGrantNothing | server/src/main/java/io/unitycatalog/server/model/UserIdentity.java:87-99 | null lists grant no role and no group |
| Identity.EmptyEmailIsKept | server/src/main/java/io/unitycatalog/server/model/UserIdentity.java:51 | an empty email is kept rather than replaced |
| ServerHttp.JavaString | server/src/main/java/io/unitycatalog/server/service/AuthService.java:116 | string concatenation writes null as "null" |
| ServerHttp.FirstCookieIndex | server/src/main/java/io/unitycatalog/server/service/AuthDecorator.java:75-80 | the position of the first cookie with the name, or none when no cookie has it |
| ServerHttp.FirstCookie | server/src/main/java/io/unitycatalog/server/service/AuthDecorator.java:75-80 | present iff some cookie has the name, and then the value of the first one |
| ServerHttp.FirstCookieSkipsOthers | server/src/main/java/io/unitycatalog/server/service/AuthDecorator.java:76-79 | cookies of other names do not change which cookie is found |
| Users.LookupUser | server/src/main/java/io/unitycatalog/server/service/AuthService.java:224-230 | a user iff the address is given and known, and then the one stored |
| Users.NewUser | server/src/main/java/io/unitycatalog/server/service/AuthService.java:248-254 | a created user is enabled and has the address |
| Users.UserStore.constructor | server/src/main/java/io/unitycatalog/server/service/AuthService.java:224-226 | the store holds the given users |
| Users.UserStore.GetUserByEmail | server/src/main/java/io/unitycatalog/server/service/AuthService.java:226 | the lookup of the store |
| Users.UserStore.CreateUser | server/src/main/java/io/unitycatalog/server/service/AuthService.java:256 | stores the new user under its address, nothing else changes |
| TokenService.CheckExchangeForm | server/src/main/java/io/unitycatalog/server/service/AuthService.java:114-139 | passes iff the form is a token exchange for an access token with a subject token type, no actor, and authorization enabled; every failure is INVALID_ARGUMENT |
| TokenService.GrantTypeCheckedFirst | server/src/main/java/io/unitycatalog/server/service/AuthService.java:114-117 | a wrong grant type is reported whatever else the request holds |
| TokenService.DisabledAuthorizationCheckedLast | server/src/main/java/io/unitycatalog/server/service/AuthService.java:135-139 | disabled authorization is reported exactly for forms that pass every other check |
| TokenService.ResponseFor | server/src/main/java/io/unitycatalog/server/service/AuthService.java:155-176 | the token, ACCESS_TOKEN and Bearer; a UC_TOKEN cookie at path / exactly for the cookie extension |
| TokenService.Logout | server/src/main/java/io/unitycatalog/server/service/AuthService.java:179-197 | always 200 with {}; an empty max-age 0 UC_TOKEN cookie exactly when one was sent |
| TokenService.LogoutDependsOnlyOnCookiePresence | server/src/main/java/io/unitycatalog/server/service/AuthService.java:181-196 | logout depends only on whether a session cookie was sent |
| TokenService.ProvisioningEmail | server/src/main/java/io/unitycatalog/server/service/AuthService.java:212-215 | the email claim unless null or blank, else preferred_username |
| TokenService.DisplayNameFor | server/src/main/java/io/unitycatalog/server/service/AuthService.java:243-246 | the name claim unless null or blank, else the address |
| TokenService.InternalPrincipal | server/src/main/java/io/unitycatalog/server/service/AuthService.java:275-299 | passes iff the principal is "admin" or an enabled user; no principal is the null-pointer failure |
| TokenService.IsAzureIssuer | server/src/main/java/io/unitycatalog/server/service/AuthService.java:203-204 | no contract of its own; ValidIssuerIsAzure, ExpectedIssuerIsAzure and RequestAuthorization.InternalIsNotAzure state which issuers it routes to Azure |
| TokenService.AzurePrincipal | server/src/main/java/io/unitycatalog/server/service/AuthService.java:207-271 | no contract of its own; AzureUserProvisioned, AzureKnownUser and AzureMissingEmailRefused state its three outcomes |
| TokenService.VerifyPrincipal | server/src/main/java/io/unitycatalog/server/service/AuthService.java:199-300 | no contract of its own; the Azure lemmas, ProvisioningIsIdempotent and InternalPrincipalChecks state both branches |
| TokenService.AzureMissingEmailRefused | server/src/main/java/io/unitycatalog/server/service/AuthService.java:217-221 | an Azure token with neither a usable email nor preferred_username is refused with INVALID_ARGUMENT "Azure AD token missing email or preferred_username claim", with the store unchanged |
| TokenService.AzureUserProvisioned | server/src/main/java/io/unitycatalog/server/service/AuthService.java:243-256 | a first-seen Azure user is created enabled under the address with externalId = oid, nothing else changes |
| TokenService.AzureKnownUser | server/src/main/java/io/unitycatalog/server/service/AuthService.java:232-240 | a known Azure user passes iff enabled, else PERMISSION_DENIED; the store is unchanged |
| TokenService.ProvisioningIsIdempotent | server/src/main/java/io/unitycatalog/server/service/AuthService.java:224-256 | after a first acceptance the same token passes again with no change |
| TokenService.InternalPrincipalChecks | server/src/main/java/io/unitycatalog/server/service/AuthService.java:275-299 | internal tokens never change the store; "admin" always passes; others need an enabled user |
| TokenService.VerifyToken | server/src/main/java/io/unitycatalog/server/service/AuthService.java:141-150 | no contract of its own; VerifiedTokenIsSigned, VerifyTokenKeepsCacheInvariant and TokenService.VerifyTokenWith state key resolution followed by verification |
| TokenService.VerifiedTokenIsSigned | server/src/main/java/io/unitycatalog/server/service/AuthService.java:141-150 | a verified token is the decoded one, RSA-signed under the algorithm its header names by the resolved key |
| TokenService.VerifyTokenKeepsCacheInvariant | server/src/main/java/io/unitycatalog/server/service/AuthService.java:149-150 | verification keeps the key cache invariant |
| TokenService.VerifyTokenWith | server/src/main/java/io/unitycatalog/server/service/AuthService.java:149-150 | verification on the resolver object |
| TokenService.Exchange | server/src/main/java/io/unitycatalog/server/service/AuthService.java:109-177 | no contract of its own; RefusedRequestTouchesNothing, IssuedOnlyForVerifiedPrincipals, ExchangeKeepsCacheInvariant and TokenService.AuthService.GrantToken state the exchange |
| TokenService.RefusedRequestTouchesNothing | server/src/main/java/io/unitycatalog/server/service/AuthService.java:114-141 | a request failing the parameter checks changes no state and calls nothing |
| TokenService.IssuedOnlyForVerifiedPrincipals | server/src/main/java/io/unitycatalog/server/service/AuthService.java:141-176 | a token is issued only for a well-formed request whose subject token verifies and whose principal passes |
| TokenService.ExchangeKeepsCacheInvariant | server/src/main/java/io/unitycatalog/server/service/AuthService.java:109-177 | token exchange keeps the key cache invariant |
| TokenService.ValidateIssuer | server/src/main/java/io/unitycatalog/server/service/AuthService.java:400-409 | no contract of its own; ValidIssuerIsAzure states that an accepted issuer is an Azure issuer |
| TokenService.ValidateAudience | server/src/main/java/io/unitycatalog/server/service/AuthService.java:418-423 | no contract of its own; AzureClaimChecks states that an accepted token has an audience equal to the expected one |
| TokenService.HostInPrefix | server/src/main/java/io/unitycatalog/server/service/AuthService.java:407-408 | a host behind https:// is contained in the issuer |
| TokenService.ValidIssuerIsAzure | server/src/main/java/io/unitycatalog/server/service/AuthService.java:400-409 | an issuer validateIssuer accepts is one the Azure routing recognises |
| TokenService.AzureClaimChecks | server/src/main/java/io/unitycatalog/server/service/AuthService.java:353-385 | accepted iff issuer prefix, audience, expiry, not-before and required claims all pass, the identity being the claims'; every failure is INVALID_ARGUMENT |
| TokenService.MissingExpiryReportedAsExpired | server/src/main/java/io/unitycatalog/server/service/AuthService.java:366-369 | a token without exp is reported as expired |
| TokenService.AzureTokenCheck | server/src/main/java/io/unitycatalog/server/service/AuthService.java:317-392 | no contract of its own; StsIssuerRefusedEarly, AzureTokenAccepted and TokenService.AuthService.ValidateAzureAdToken state validateAzureAdToken |
| TokenService.StsIssuerRefusedEarly | server/src/main/java/io/unitycatalog/server/service/AuthService.java:335-338 | an sts.windows.net token is refused before any key lookup, state unchanged |
| TokenService.AzureTokenAccepted | server/src/main/java/io/unitycatalog/server/service/AuthService.java:317-392 | an accepted token is non-blank, decodes, names the login host, verifies, and its claims pass every check |
| TokenService.AuthService.constructor | server/src/main/java/io/unitycatalog/server/service/AuthService.java:109-177 | the service's resolver, store and settings |
| TokenService.AuthService.CheckPrincipal | server/src/main/java/io/unitycatalog/server/service/AuthService.java:199-300 | the outcome and new store are those of the principal specification |
| TokenService.AuthService.IssueFor | server/src/main/java/io/unitycatalog/server/service/AuthService.java:151-176 | the principal check and the response |
| TokenService.AuthService.GrantToken | server/src/main/java/io/unitycatalog/server/service/AuthService.java:109-177 | the result and the new state are those of the exchange specification |
| TokenService.AuthService.ValidateAzureAdToken | server/src/main/java/io/unitycatalog/server/service/AuthService.java:317-392 | the result and the new resolver state are those of the Azure token specification |
| RequestAuthorization.TokenFromRequest | server/src/main/java/io/unitycatalog/server/service/AuthDecorator.java:161-170 | fails UNAUTHENTICATED "No authorization found." exactly when there is neither a Bearer header nor a cookie |
| RequestAuthorization.BearerHeaderRoundTrip | server/src/main/java/io/unitycatalog/server/service/AuthDecorator.java:163-165 | the token of a Bearer header is what follows the prefix, whatever cookie is sent |
| RequestAuthorization.OtherHeaderFallsThrough | server/src/main/java/io/unitycatalog/server/service/AuthDecorator.java:163-168 | a header without the exact prefix falls through to the cookie |
| RequestAuthorization.LowerCaseSchemeIgnored | server/src/main/java/io/unitycatalog/server/service/AuthDecorator.java:161-170 | the prefix is case-sensitive |
| RequestAuthorization.AzureIdentity | server/src/main/java/io/unitycatalog/server/service/AuthDecorator.java:108-112 | an identity exactly when the extracted claims validate, and it is the claims' identity |
| RequestAuthorization.Authorize | server/src/main/java/io/unitycatalog/server/service/AuthDecorator.java:70-159 | no contract of its own; AcceptedRequests, NoAdminShortcut, AzureFailuresLookAlike and RequestAuthorization.AuthDecorator.Serve state the request check |
| RequestAuthorization.AuthorizeDecoded | server/src/main/java/io/unitycatalog/server/service/AuthDecorator.java:85-150 | no contract of its own; UnknownIssuerFetchesNothing, AcceptedRequests and RequestAuthorization.AuthDecorator.ServeDecoded state the dispatch on the issuer |
| RequestAuthorization.UnknownIssuerFetchesNothing | server/src/main/java/io/unitycatalog/server/service/AuthDecorator.java:147-150 | any other issuer is refused PERMISSION_DENIED with the state untouched, whatever the network |
| RequestAuthorization.AzureFailuresLookAlike | server/src/main/java/io/unitycatalog/server/service/AuthDecorator.java:98-123 | every failure of an Azure token is the same PERMISSION_DENIED refusal |
| RequestAuthorization.AcceptedRequests | server/src/main/java/io/unitycatalog/server/service/AuthDecorator.java:93-156 | a passed request carries a verified token; the identity is set exactly for Azure tokens; an internal token needs an enabled user |
| RequestAuthorization.NoAdminShortcut | server/src/main/java/io/unitycatalog/server/service/AuthDecorator.java:131-143 | an internal "admin" token with no such user is refused |
| RequestAuthorization.InternalIsNotAzure | server/src/main/java/io/unitycatalog/server/service/AuthDecorator.java:93-125 | the internal issuer is not routed as Azure |
| RequestAuthorization.NotContainsLonger | server/src/main/java/io/unitycatalog/server/service/AuthDecorator.java:94 | a string does not contain a longer one |
| RequestAuthorization.AuthDecorator.constructor | server/src/main/java/io/unitycatalog/server/service/AuthDecorator.java:58-67 | the decorator's resolver and user store |
| RequestAuthorization.AuthDecorator.Serve | server/src/main/java/io/unitycatalog/server/service/AuthDecorator.java:70-159 | the attributes or failure and the new resolver state are those of the request specification |
| RequestAuthorization.AuthDecorator.ServeDecoded | server/src/main/java/io/unitycatalog/server/service/AuthDecorator.java:93-150 | the issuer dispatch, equal to the request specification once the token is decoded |
| AzureJwt.ExpectedIssuer | server/src/main/java/io/unitycatalog/server/security/jwt/JwksOperations.java:28 | no contract of its own; ForTenant, ExpectedIssuerInjective and ExpectedIssuerIsAzure state the issuer template |
| AzureJwt.JwksUrl | server/src/main/java/io/unitycatalog/server/security/jwt/JwksOperations.java:26-27 | no contract of its own; ForTenant states the key-set URL template |
| AzureJwt.AzureVerifier | server/src/main/java/io/unitycatalog/server/security/jwt/JwksOperations.java:86-93 | no contract of its own; AcceptedIff and ExpiredBeyondLeewayRefused state what this verifier accepts |
| AzureJwt.ForTenant | server/src/main/java/io/unitycatalog/server/security/jwt/JwksOperations.java:26-44 | the expected issuer is exactly https://login.microsoftonline.com/{tenant}/v2.0 and the key-set URL exactly https://login.microsoftonline.com/{tenant}/discovery/v2.0/keys |
| AzureJwt.CheckDecoded | server/src/main/java/io/unitycatalog/server/security/jwt/JwksOperations.java:70-103 | every failure is UNAUTHENTICATED; a success returns the decoded token |
| AzureJwt.ValidateAzureJwt | server/src/main/java/io/unitycatalog/server/security/jwt/JwksOperations.java:58-116 | a null or undecodable token is "Invalid Azure JWT"; every failure is UNAUTHENTICATED |
| AzureJwt.AcceptedIff | server/src/main/java/io/unitycatalog/server/security/jwt/JwksOperations.java:73-95 | accepted iff exact issuer, an RSA key for the kid, RS256 signature, oid and name present, expired less than 60 s ago (or no exp), not before nbf and not issued in the future |
| AzureJwt.IssuerCheckedBeforeKeyLookup | server/src/main/java/io/unitycatalog/server/security/jwt/JwksOperations.java:73-81 | another issuer is refused with its own message whatever keys and signatures say |
| AzureJwt.ExpiredBeyondLeewayRefused | server/src/main/java/io/unitycatalog/server/security/jwt/JwksOperations.java:92 | a token expired 60 s or more ago is refused |
| AzureJwt.TenantClaimNotChecked | server/src/main/java/io/unitycatalog/server/security/jwt/JwksOperations.java:58-116 | validation never reads tid |
| AzureJwt.IsTokenFromExpectedTenant | server/src/main/java/io/unitycatalog/server/security/jwt/JwksOperations.java:118-121 | no contract of its own; TenantCheckIff states it as tid being a string equal to the tenant |
| AzureJwt.TenantCheckIff | server/src/main/java/io/unitycatalog/server/security/jwt/JwksOperations.java:118-121 | from the tenant iff tid is a string claim equal to the tenant |
| AzureJwt.ExpectedIssuerInjective | server/src/main/java/io/unitycatalog/server/security/jwt/JwksOperations.java:28-36 | different tenants have different issuers |
| AzureJwt.ExpectedIssuerIsAzure | server/src/main/java/io/unitycatalog/server/security/jwt/JwksOperations.java:28-36 | a tenant issuer passes validateIssuer and the Azure routing |
| JwksClients.Create | server/src/main/java/io/unitycatalog/server/utils/JwksHttpClientFactory.java:48-64 | accepted iff blank or lower-cased armeria or java; the timeout is passed through; otherwise the message naming the type |
| JwksClients.CreateFromProperties | server/src/main/java/io/unitycatalog/server/utils/JwksHttpClientFactory.java:13-25 | the default 10 s timeout, accepting what Create accepts |
| JwksClients.BlankIgnoresCase | server/src/main/java/io/unitycatalog/server/utils/JwksHttpClientFactory.java:49-53 | lower-casing neither makes nor unmakes a blank type |
| JwksClients.CreateIgnoresCase | server/src/main/java/io/unitycatalog/server/utils/JwksHttpClientFactory.java:53-57 | two spellings differing in case choose alike |
| JwksClients.BlankSelectsArmeria | server/src/main/java/io/unitycatalog/server/utils/JwksHttpClientFactory.java:49-51 | null or blank selects Armeria |
| JwksClients.UpperCaseJavaAccepted | server/src/main/java/io/unitycatalog/server/utils/JwksHttpClientFactory.java:53-57 | JAVA selects the Java client |
| JwksClients.PaddedNameRejected | server/src/main/java/io/unitycatalog/server/utils/JwksHttpClientFactory.java:53-62 | " java" is not trimmed and is refused |
| Bootstrap.ShouldGrant | server/src/test/java/io/unitycatalog/server/service/AuthServiceAdminAllowlistTest.java:258-269 | no contract of its own; GrantedIffAllowlisted and the example lemmas state when the helper grants |
| Bootstrap.GrantsFor | server/src/test/java/io/unitycatalog/server/service/AuthServiceAdminAllowlistTest.java:253-276 | at most the one grant (the user's parsed UUID, metastore, OWNER); none when the user id is not a UUID |
| Bootstrap.GrantedIffAllowlisted | server/src/test/java/io/unitycatalog/server/service/AuthServiceAdminAllowlistTest.java:258-272 | a grant is made exactly when the validator matches the address and the user id parses as a UUID |
| Bootstrap.Authorizer.Authorize | server/src/test/java/io/unitycatalog/server/service/AuthServiceAdminAllowlistTest.java:89 | no contract of its own; Bootstrap.Authorizer.CheckAdminAllowlistAndGrant states when authorize holds after the helper |
| Bootstrap.Authorizer.constructor | server/src/test/java/io/unitycatalog/server/service/AuthServiceAdminAllowlistTest.java:42 | no grants |
| Bootstrap.Authorizer.CheckAdminAllowlistAndGrant | server/src/test/java/io/unitycatalog/server/service/AuthServiceAdminAllowlistTest.java:253-276 | adds exactly the grants of the decision; for a readable metastore and a parsable id, authorize(UUID, metastore, OWNER) then holds iff it held or the address matched |
| Bootstrap.NotBlankFromFirst | server/src/test/java/io/unitycatalog/server/service/AuthServiceAdminAllowlistTest.java:263 | an address starting with a visible character is not blank |
| Bootstrap.NormalFormOfCanonical | server/src/test/java/io/unitycatalog/server/service/AuthServiceAdminAllowlistTest.java:268-269 | a lower-case trimmed address is its own normal form |
| Bootstrap.ExactEmailGranted | server/src/test/java/io/unitycatalog/server/service/AuthServiceAdminAllowlistTest.java:63-92 | admin@example.com on the list is granted OWNER |
| Bootstrap.UpperCaseEmailGranted | server/src/test/java/io/unitycatalog/server/service/AuthServiceAdminAllowlistTest.java:187-216 | ADMIN@EXAMPLE.COM matches admin@example.com |
| Bootstrap.DomainEmailGranted | server/src/test/java/io/unitycatalog/server/service/AuthServiceAdminAllowlistTest.java:94-123 | alice@company.com matches @company.com |
| Bootstrap.SecondDomainGranted | server/src/test/java/io/unitycatalog/server/service/AuthServiceAdminAllowlistTest.java:218-247 | bob@partner.org matches the second of two domains |
| Bootstrap.OtherEmailNotGranted | server/src/test/java/io/unitycatalog/server/service/AuthServiceAdminAllowlistTest.java:125-154 | user@other.com is not granted |
| Bootstrap.EmptyAllowlistGrantsNothing | server/src/test/java/io/unitycatalog/server/service/AuthServiceAdminAllowlistTest.java:156-185 | no allowlist, no grant |

## Left out

- The internal issuer constant `INTERNAL` lives in `SecurityContext`, which is not part of this model. It is taken to be `"internal"`; only its inequality with the Azure hosts matters to the properties.
- Concurrency is not modelled. The read/write lock of the cache, the compare-and-set of the rate limiter and the concurrent map of limiters are modelled as sequential updates. With a single caller, the compare-and-set always succeeds.
- Clocks are parameters, and each request reads the clock once: one `nowMillis` serves the cache get, the limiter, the put after the fetch, the library verifier and `isExpired`/`isNotYetValid`. The source calls `Instant.now()` separately at each of these points, so a second boundary crossed during a request (for example during the network fetch) is not modelled.
- The JWT library and the HTTP layer are function parameters. Their own behaviour is not modelled: `JWT.decode`, signature checks, `JwkProviderBuilder` with its own cache and rate limit, the Armeria and `java.net.http` clients, and the document parsing of Jackson.
- Logging is left out.
- KeyCache.JwksCache.Put: the `IllegalArgumentException` is an error result. The cache is then unchanged, as in the code.
- Failure messages keep their fixed text. The text after it that comes from an exception (`e.getMessage()`) is dropped, so two failures of one kind look alike in the model as they do to a client that reads only the fixed part.
- `toLowerCase` is modelled on ASCII letters only, and `trim` exactly (characters up to `' '`). Locale-specific case mappings are left out.
- `String.hashCode` is computed over the UTF-16 encoding of the string (a character outside the Basic Multilingual Plane counts as its surrogate pair), and `Long.hashCode` on the two's-complement 64-bit form of the value. A Java string holding an unpaired surrogate is not a Dafny `string` and is not modelled. The `long` overflow of `now + ttl` is not modelled, since times and TTLs are unbounded integers.
- A `null` element inside a configured allowlist would raise a `NullPointerException` in the code. Allowlists are modelled with non-null elements, and claim arrays with string items only.
- Jose.Issuer, Jose.Subject and Jose.Audience read only the claim kinds the core relies on. `getIssuer` and `getSubject` of java-jwt read a non-string claim with `asText` (`"iss": 5` gives "5"), while the model gives `None`. `getAudience` of an empty string is an empty list, while the model gives `[""]`. The verifier's own issuer check reads `iss` as a string, as modelled.
- A `null` subject in the token exchange is modelled as its own failure, standing for the `NullPointerException` the code raises.
- TokenService.AuthService.CheckPrincipal: an exception from `createUser` (the INTERNAL "Error processing Azure AD token" path) is not modelled, since the repository is a map insert that cannot fail.
- Bootstrap.Authorizer.CheckAdminAllowlistAndGrant: the metastore id (`getMetastoreId`) is an `Option`, with `None` for a failure to read it. `UUID.fromString(user.getId())` is a function parameter that gives `None` where the library throws. The UUID grammar itself is not modelled. The helper swallows all exceptions, so the model has no error path: a failure leaves the grants unchanged.
- The cookie lifetime is given in seconds. Parsing it with `Duration.parse` is not part of this model.
- The creation of the token-issuing JWT (`createAccessToken`) is a parameter.
- `ServerProperties` parsing is not part of this model: the comma-separated admin lists and the client-type property arrive already split and read.
- A configuration value that is not a string (a `ClassCastException` in discovery) and a malformed URL (`MalformedURLException`) are not modelled. The discovery document is a map from names to optional strings, and URLs are strings.
- KeyResolution.ExtractAzureAdClaims returns the claim record as a value. The object with setters is modelled separately, as `AzureClaims.AzureAdTokenClaims`.
- JwksClients.Create: the two client classes are represented by their tag and timeout. Their constructors and their use of the timeout are not modelled.
