/**
 * Key resolution (utils/JwksOperations): the cache-first lookup of a signing
 * key with a per-issuer rate limit on every miss, the choice of signature
 * algorithm for a key, the building of a verifier, and the extraction of the
 * Azure AD claims from a decoded token.
 *
 * The network is a parameter: `Fetch` returns the parsed discovery document
 * for a URL (or an I/O or JSON failure), `KeyProvider` stands for JwkProvider
 * and returns the key with a given id from a key source. The clock is
 * `nowMillis`; the cache reads it in whole seconds.
 */
module KeyResolution {
  import opened Common
  import opened Jose
  import opened KeyCache
  import opened RateLimiting
  import opened Discovery
  import opened AzureClaims

  /** Where a JwkProvider reads keys: the server's own certificate file, or a JWKS URL. */
  datatype JwkSource = LocalCertificates | JwksUri(uri: string)

  datatype FetchFailure = IoFailure(message: string) | MalformedJson

  /** JwksHttpClient.fetch followed by the JSON parse; a parse of the text `null` gives no document. */
  type Fetch = string -> Result<Option<Config>, FetchFailure>

  /** JwkProvider.get(keyId) on a key source; a failure carries the provider's message. */
  type KeyProvider = (JwkSource, Option<string>) -> Result<Jwk, string>

  datatype KeyError =
    | NullIssuer                          // computeIfAbsent(null, ...): NullPointerException
    | RateLimiterDivisionByZero           // new RateLimiter(0): ArithmeticException
    | RateLimitExceeded                   // ABORTED "JWKS request rate limit exceeded. Please try again later."
    | FetchFailed(message: string)        // ABORTED "Failed to fetch OIDC configuration: " + message
    | MalformedConfiguration              // the Jackson parse failure
    | DiscoveryFailed(configError: ConfigError)
    | KeyNotFound(message: string)        // the JwkProvider failure
    | CachePutRejected(cacheError: CacheError)
    | NotRsaKey(algorithm: string)        // ABORTED "Invalid algorithm '<alg>' for issuer '<issuer>'"
    | UnsupportedAlgorithm(name: string)  // ABORTED "Unsupported algorithm: <name>"

  // ---------------------------------------------------------------------
  // loadJwkProvider
  // ---------------------------------------------------------------------

  /**
   * loadJwkProvider: the internal issuer reads the local certificates. Any
   * other issuer is discovered: the document fetched from its well-known URL
   * must name the scheme-normalised issuer, and its `jwks_uri` is the source.
   */
  function LoadJwkProvider(issuer: string, fetch: Fetch): (r: Result<JwkSource, KeyError>)
    ensures issuer == INTERNAL ==> r == Ok(LocalCertificates)
    ensures issuer != INTERNAL && r.Ok? ==>
      && fetch(WellKnownConfigUrl(issuer)).Ok?
      && fetch(WellKnownConfigUrl(issuer)).value.Some?
      && ConfigValue(fetch(WellKnownConfigUrl(issuer)).value.value, "issuer") == Some(NormalizeIssuer(issuer))
      && ConfigValue(fetch(WellKnownConfigUrl(issuer)).value.value, "jwks_uri").Some?
      && r.value == JwksUri(ConfigValue(fetch(WellKnownConfigUrl(issuer)).value.value, "jwks_uri").value)
  {
    if issuer == INTERNAL then Ok(LocalCertificates)
    else
      match fetch(WellKnownConfigUrl(issuer))
      case Err(IoFailure(m)) => Err(FetchFailed(m))
      case Err(MalformedJson) => Err(MalformedConfiguration)
      case Ok(config) =>
        match CheckConfiguration(config, NormalizeIssuer(issuer))
        case Err(e) => Err(DiscoveryFailed(e))
        case Ok(uri) => Ok(JwksUri(uri))
  }

  // ---------------------------------------------------------------------
  // algorithmForJwk, verifierForIssuerAndKey
  // ---------------------------------------------------------------------

  /** The `switch` on the algorithm name: exact, case-sensitive names only. */
  function ParseAlgorithm(name: string): Option<RsaAlgorithm>
  {
    if name == "RS256" then Some(RS256)
    else if name == "RS384" then Some(RS384)
    else if name == "RS512" then Some(RS512)
    else None
  }

  /** Parsing inverts naming, both ways. */
  lemma ParseAlgorithmRoundTrip(a: RsaAlgorithm, name: string)
    ensures ParseAlgorithm(AlgorithmName(a)) == Some(a)
    ensures ParseAlgorithm(name).Some? ==> AlgorithmName(ParseAlgorithm(name).value) == name
  {
  }

  /** The key's own `alg` when non-empty, else the token header's hint when non-null, else RS256. */
  function ChosenAlgorithmName(jwk: Jwk, algorithmHint: Option<string>): string
  {
    if jwk.algorithm.Some? && jwk.algorithm.value != "" then jwk.algorithm.value
    else if algorithmHint.Some? then algorithmHint.value
    else "RS256"
  }

  /** algorithmForJwk: the chosen name must be one of RS256, RS384, RS512. */
  function AlgorithmForJwk(jwk: Jwk, algorithmHint: Option<string>): (r: Result<RsaAlgorithm, KeyError>)
    ensures r.Ok? <==> ParseAlgorithm(ChosenAlgorithmName(jwk, algorithmHint)).Some?
    ensures r.Ok? ==> AlgorithmName(r.value) == ChosenAlgorithmName(jwk, algorithmHint)
    ensures r.Err? ==> r.error == UnsupportedAlgorithm(ChosenAlgorithmName(jwk, algorithmHint))
  {
    var name := ChosenAlgorithmName(jwk, algorithmHint);
    match ParseAlgorithm(name)
    case Some(a) => ParseAlgorithmRoundTrip(a, name); Ok(a)
    case None => Err(UnsupportedAlgorithm(name))
  }

  /** The key's own algorithm wins over the hint; with neither, RS256 is used. */
  lemma AlgorithmPrecedence(jwk: Jwk, hint: Option<string>)
    ensures jwk.algorithm.Some? && jwk.algorithm.value != "" ==>
      AlgorithmForJwk(jwk, hint) == AlgorithmForJwk(jwk, None)
    ensures (jwk.algorithm.None? || jwk.algorithm == Some("")) && hint.None? ==>
      AlgorithmForJwk(jwk, hint) == Ok(RS256)
  {
  }

  /** The public key must be an RSA key, whatever the case of the name. */
  predicate IsRsaKey(jwk: Jwk)
  {
    EqualsIgnoreCase("RSA", jwk.publicKeyAlgorithm)
  }

  /**
   * The verifier verifierForIssuerAndKey builds once it has the key: an RSA
   * key only, the chosen algorithm, the issuer required (none when null), no
   * other claim and no leeway.
   */
  function VerifierForKey(jwk: Jwk, issuer: Option<string>, algorithmHint: Option<string>)
    : (r: Result<Verifier, KeyError>)
    ensures !IsRsaKey(jwk) ==> r == Err(NotRsaKey(jwk.publicKeyAlgorithm))
    ensures r.Ok? <==> IsRsaKey(jwk) && AlgorithmForJwk(jwk, algorithmHint).Ok?
    ensures r.Ok? ==>
      r.value == Verifier(AlgorithmForJwk(jwk, algorithmHint).value, jwk, issuer, [], 0)
  {
    if !IsRsaKey(jwk) then Err(NotRsaKey(jwk.publicKeyAlgorithm))
    else
      match AlgorithmForJwk(jwk, algorithmHint)
      case Err(e) => Err(e)
      case Ok(a) => Ok(Verifier(a, jwk, issuer, [], 0))
  }

  /** Such a verifier accepts only tokens from that issuer under the chosen algorithm. */
  lemma VerifierChecksIssuer(jwk: Jwk, issuer: string, hint: Option<string>, jwt: DecodedJwt,
                             signatureValid: SignatureCheck, nowSeconds: int)
    requires VerifierForKey(jwk, Some(issuer), hint).Ok?
    requires Verify(VerifierForKey(jwk, Some(issuer), hint).value, jwt, signatureValid, nowSeconds).Ok?
    ensures Issuer(jwt) == Some(issuer)
    ensures jwt.algorithm == Some(ChosenAlgorithmName(jwk, hint))
  {
  }

  // ---------------------------------------------------------------------
  // getClaimSafely, getClaimListSafely, extractAzureAdClaims
  // ---------------------------------------------------------------------

  /** getClaimSafely: null for a null token or name, a missing or null claim, or a claim that is not a string. */
  function GetClaimSafely(jwt: Option<DecodedJwt>, name: Option<string>): (r: Option<string>)
    ensures r.Some? <==> jwt.Some? && name.Some? && Claim(jwt.value, name.value).StringClaim?
    ensures r.Some? ==> r.value == Claim(jwt.value, name.value).text
  {
    if jwt.None? || name.None? then None
    else
      var claim := Claim(jwt.value, name.value);
      if claim.NullClaim? then None else AsString(claim)
  }

  /** getClaimListSafely: null unless the claim is an array of strings, whose texts are the result. */
  function GetClaimListSafely(jwt: Option<DecodedJwt>, name: Option<string>): (r: Option<seq<string>>)
    ensures r.Some? <==>
      && jwt.Some? && name.Some? && Claim(jwt.value, name.value).ListClaim?
      && forall i :: 0 <= i < |Claim(jwt.value, name.value).items| ==> Claim(jwt.value, name.value).items[i].StringClaim?
    ensures r.Some? ==> |r.value| == |Claim(jwt.value, name.value).items|
    ensures r.Some? ==> forall i :: 0 <= i < |r.value| ==> r.value[i] == Claim(jwt.value, name.value).items[i].text
  {
    if jwt.None? || name.None? then None
    else
      var claim := Claim(jwt.value, name.value);
      if claim.NullClaim? then None else AsStringList(claim)
  }

  /** The first audience, or null for no or an empty audience. */
  function FirstAudience(jwt: DecodedJwt): (r: Option<string>)
    ensures r.Some? <==> Audience(jwt).Some? && |Audience(jwt).value| > 0
    ensures r.Some? ==> r.value == Audience(jwt).value[0]
  {
    var aud := Audience(jwt);
    if aud.Some? && |aud.value| > 0 then Some(aud.value[0]) else None
  }

  /** `date.getTime() / 1000` for a NumericDate read as a java.util.Date. */
  function EpochSecondsOf(millis: Option<int>): Option<int>
  {
    if millis.None? then None else Some(JavaDiv(millis.value, 1000))
  }

  /**
   * extractAzureAdClaims: a null token is refused ("JWT cannot be null");
   * otherwise each field is copied from its claim. The three dates come back
   * in the seconds the token carries, the millisecond round trip losing
   * nothing.
   */
  function ExtractAzureAdClaims(jwt: Option<DecodedJwt>): (r: Result<TokenClaims, string>)
    ensures r.Err? <==> jwt.None?
    ensures r.Ok? ==>
      && r.value.expiration == NumericDate(jwt.value, "exp")
      && r.value.issuedAt == NumericDate(jwt.value, "iat")
      && r.value.notBefore == NumericDate(jwt.value, "nbf")
    ensures r.Ok? ==>
      && r.value.issuer == Issuer(jwt.value)
      && r.value.audience == FirstAudience(jwt.value)
      && r.value.objectId == GetClaimSafely(jwt, Some("oid"))
      && r.value.tenantId == GetClaimSafely(jwt, Some("tid"))
      && r.value.name == GetClaimSafely(jwt, Some("name"))
      && r.value.email == GetClaimSafely(jwt, Some("email"))
      && r.value.preferredUsername == GetClaimSafely(jwt, Some("preferred_username"))
      && r.value.roles == GetClaimListSafely(jwt, Some("roles"))
      && r.value.groups == GetClaimListSafely(jwt, Some("groups"))
  {
    if jwt.None? then Err("JWT cannot be null")
    else
      var t := jwt.value;
      DateRoundTrip(t, "exp");
      DateRoundTrip(t, "iat");
      DateRoundTrip(t, "nbf");
      Ok(NoClaims.(
        issuer := Issuer(t),
        audience := FirstAudience(t),
        expiration := EpochSecondsOf(DateMillis(t, "exp")),
        issuedAt := EpochSecondsOf(DateMillis(t, "iat")),
        notBefore := EpochSecondsOf(DateMillis(t, "nbf")),
        objectId := GetClaimSafely(jwt, Some("oid")),
        tenantId := GetClaimSafely(jwt, Some("tid")),
        name := GetClaimSafely(jwt, Some("name")),
        email := GetClaimSafely(jwt, Some("email")),
        preferredUsername := GetClaimSafely(jwt, Some("preferred_username")),
        roles := GetClaimListSafely(jwt, Some("roles")),
        groups := GetClaimListSafely(jwt, Some("groups"))))
  }

  /** Seconds to a Date in milliseconds and back gives the seconds again, for either sign. */
  lemma DateRoundTrip(jwt: DecodedJwt, name: string)
    ensures EpochSecondsOf(DateMillis(jwt, name)) == NumericDate(jwt, name)
  {
    if Claim(jwt, name).NumberClaim? {
      JavaDivMillis(Claim(jwt, name).number);
    }
  }

  /** Non-blank string claim. */
  predicate HasTextClaim(jwt: DecodedJwt, name: string)
  {
    Claim(jwt, name).StringClaim? && !IsBlank(Claim(jwt, name).text)
  }

  /**
   * The extracted claims pass validate() exactly when the token has a
   * non-blank issuer, a non-blank first audience, a numeric `exp`, and
   * non-blank `oid` and `tid` strings.
   */
  lemma ExtractedClaimsValidIff(jwt: DecodedJwt)
    ensures Validate(ExtractAzureAdClaims(Some(jwt)).value).Pass? <==>
      && HasTextClaim(jwt, "iss")
      && FirstAudience(jwt).Some? && !IsBlank(FirstAudience(jwt).value)
      && Claim(jwt, "exp").NumberClaim?
      && HasTextClaim(jwt, "oid")
      && HasTextClaim(jwt, "tid")
  {
    var c := ExtractAzureAdClaims(Some(jwt)).value;
    assert IsPresent(c, Iss) <==> HasTextClaim(jwt, "iss");
    assert IsPresent(c, Exp) <==> Claim(jwt, "exp").NumberClaim?;
  }

  // ---------------------------------------------------------------------
  // getJwkWithCache as a function of the state
  // ---------------------------------------------------------------------

  /** One rate limiter as the resolver sees it. */
  datatype LimiterView = LimiterView(lastRequestTime: int, minIntervalMillis: int)

  /** The mutable state getJwkWithCache works on: the cache entries and the limiters by issuer. */
  datatype ResolverState = ResolverState(entries: seq<Entry>, limiters: map<string, LimiterView>)

  /** The cache's configuration and the limiters' rate. */
  datatype ResolverConfig = ResolverConfig(ttlSeconds: int, maxKeys: int, rateLimit: int)

  /**
   * The limiter step of a miss: the issuer's limiter, created on first use
   * with the configured rate, is asked for one request. Returns the grant and
   * the limiters afterwards (a created limiter stays even when it denies).
   */
  function LimitStep(limiters: map<string, LimiterView>, rateLimit: int, issuer: string, nowMillis: int)
    : (r: (bool, map<string, LimiterView>))
    requires issuer in limiters || rateLimit != 0
    ensures issuer in r.1 && r.1.Keys == limiters.Keys + {issuer}
    ensures forall other :: other in limiters && other != issuer ==> r.1[other] == limiters[other]
  {
    var limiter :=
      if issuer in limiters then limiters[issuer]
      else LimiterView(0, MinIntervalMillis(rateLimit));
    var step := Acquire(limiter.lastRequestTime, limiter.minIntervalMillis, nowMillis);
    (step.0, limiters[issuer := limiter.(lastRequestTime := step.1)])
  }

  /**
   * After a granted miss: load the issuer's key source, ask it for the key,
   * and put the key in the cache (refused for a blank key id) before
   * returning it. Returns the result and the cache entries afterwards.
   */
  function FetchAndCache(entries: seq<Entry>, cfg: ResolverConfig, issuer: string, keyId: Option<string>,
                         nowSeconds: int, fetch: Fetch, provider: KeyProvider): (Result<Jwk, KeyError>, seq<Entry>)
  {
    match LoadJwkProvider(issuer, fetch)
    case Err(e) => (Err(e), entries)
    case Ok(source) =>
      match provider(source, keyId)
      case Err(m) => (Err(KeyNotFound(m)), entries)
      case Ok(jwk) =>
        if IsNullOrBlank(keyId) then (Err(CachePutRejected(BlankKeyId)), entries)
        else (Ok(jwk), AfterPut(entries, keyId.value, jwk, nowSeconds, cfg.ttlSeconds, cfg.maxKeys))
  }

  /**
   * getJwkWithCache: a live cached key is returned at once; on a miss the
   * issuer's limiter must grant the request, and the key is then fetched and
   * cached.
   */
  function ResolveKey(s: ResolverState, cfg: ResolverConfig, issuer: Option<string>, keyId: Option<string>,
                      nowMillis: int, fetch: Fetch, provider: KeyProvider): (Result<Jwk, KeyError>, ResolverState)
  {
    var nowSeconds := nowMillis / 1000;
    var cached := GetValue(s.entries, keyId, nowSeconds);
    var entries := AfterGet(s.entries, keyId, nowSeconds);
    if cached.Some? then (Ok(cached.value), s.(entries := entries))
    else if issuer.None? then (Err(NullIssuer), s.(entries := entries))
    else if issuer.value !in s.limiters && cfg.rateLimit == 0 then
      (Err(RateLimiterDivisionByZero), s.(entries := entries))
    else
      var (granted, limiters) := LimitStep(s.limiters, cfg.rateLimit, issuer.value, nowMillis);
      if !granted then (Err(RateLimitExceeded), ResolverState(entries, limiters))
      else
        var (r, entries') := FetchAndCache(entries, cfg, issuer.value, keyId, nowSeconds, fetch, provider);
        (r, ResolverState(entries', limiters))
  }

  /**
   * A cache hit answers from the cache alone: the issuer, the limiters, the
   * network and the key provider play no part.
   */
  lemma CacheHitIsIsolated(s: ResolverState, cfg: ResolverConfig, issuer1: Option<string>, issuer2: Option<string>,
                           keyId: Option<string>, nowMillis: int, fetch1: Fetch, fetch2: Fetch,
                           provider1: KeyProvider, provider2: KeyProvider)
    requires GetValue(s.entries, keyId, nowMillis / 1000).Some?
    ensures ResolveKey(s, cfg, issuer1, keyId, nowMillis, fetch1, provider1) ==
            ResolveKey(s, cfg, issuer2, keyId, nowMillis, fetch2, provider2)
    ensures ResolveKey(s, cfg, issuer1, keyId, nowMillis, fetch1, provider1).0 ==
            Ok(GetValue(s.entries, keyId, nowMillis / 1000).value)
    ensures ResolveKey(s, cfg, issuer1, keyId, nowMillis, fetch1, provider1).1.limiters == s.limiters
  {
  }

  /**
   * A miss that the issuer's limiter denies fails with the rate-limit error
   * whatever the network would answer, and the cache only loses what the
   * lookup itself dropped. This holds for the internal issuer as well.
   */
  lemma DeniedMissFetchesNothing(s: ResolverState, cfg: ResolverConfig, issuer: string, keyId: Option<string>,
                                 nowMillis: int, fetch1: Fetch, fetch2: Fetch,
                                 provider1: KeyProvider, provider2: KeyProvider)
    requires GetValue(s.entries, keyId, nowMillis / 1000).None?
    requires issuer in s.limiters
    requires nowMillis - s.limiters[issuer].lastRequestTime < s.limiters[issuer].minIntervalMillis
    ensures ResolveKey(s, cfg, Some(issuer), keyId, nowMillis, fetch1, provider1) ==
            ResolveKey(s, cfg, Some(issuer), keyId, nowMillis, fetch2, provider2)
    ensures ResolveKey(s, cfg, Some(issuer), keyId, nowMillis, fetch1, provider1) ==
            (Err(RateLimitExceeded), s.(entries := AfterGet(s.entries, keyId, nowMillis / 1000)))
  {
    assert s.limiters[issuer := s.limiters[issuer]] == s.limiters;
  }

  /** A request leaves the limiters of every other issuer as they were. */
  lemma OtherIssuersUntouched(s: ResolverState, cfg: ResolverConfig, issuer: Option<string>, keyId: Option<string>,
                              nowMillis: int, fetch: Fetch, provider: KeyProvider, other: string)
    requires issuer != Some(other)
    ensures var after := ResolveKey(s, cfg, issuer, keyId, nowMillis, fetch, provider).1;
      (other in after.limiters <==> other in s.limiters) &&
      (other in s.limiters ==> after.limiters[other] == s.limiters[other])
  {
  }

  /** A limiter created by a miss starts from the epoch, with the interval of the configured rate. */
  lemma LimiterCreatedLazily(s: ResolverState, cfg: ResolverConfig, issuer: string, keyId: Option<string>,
                             nowMillis: int, fetch: Fetch, provider: KeyProvider)
    requires GetValue(s.entries, keyId, nowMillis / 1000).None?
    requires issuer !in s.limiters && cfg.rateLimit != 0
    ensures var after := ResolveKey(s, cfg, Some(issuer), keyId, nowMillis, fetch, provider).1;
      && issuer in after.limiters
      && after.limiters[issuer].minIntervalMillis == MinIntervalMillis(cfg.rateLimit)
      && after.limiters[issuer] == LimiterView(Acquire(0, MinIntervalMillis(cfg.rateLimit), nowMillis).1,
                                               MinIntervalMillis(cfg.rateLimit))
  {
  }

  /** A key fetched on a miss is in the cache when it is returned: a lookup at the same second finds it. */
  lemma FetchedKeyIsCached(s: ResolverState, cfg: ResolverConfig, issuer: Option<string>, keyId: Option<string>,
                           nowMillis: int, fetch: Fetch, provider: KeyProvider)
    requires cfg.ttlSeconds > 0 && cfg.maxKeys > 0
    requires GetValue(s.entries, keyId, nowMillis / 1000).None?
    requires ResolveKey(s, cfg, issuer, keyId, nowMillis, fetch, provider).0.Ok?
    ensures var (r, after) := ResolveKey(s, cfg, issuer, keyId, nowMillis, fetch, provider);
      GetValue(after.entries, keyId, nowMillis / 1000) == Some(r.value)
  {
    var entries := AfterGet(s.entries, keyId, nowMillis / 1000);
    var (r, after) := ResolveKey(s, cfg, issuer, keyId, nowMillis, fetch, provider);
    PutThenGet(entries, keyId.value, r.value, nowMillis / 1000, cfg.ttlSeconds, cfg.maxKeys);
  }

  /** The cache invariant survives every request. */
  lemma ResolveKeepsCacheInvariant(s: ResolverState, cfg: ResolverConfig, issuer: Option<string>,
                                   keyId: Option<string>, nowMillis: int, fetch: Fetch, provider: KeyProvider)
    requires cfg.maxKeys > 0
    requires CacheInvariant(s.entries, cfg.ttlSeconds, cfg.maxKeys)
    ensures CacheInvariant(ResolveKey(s, cfg, issuer, keyId, nowMillis, fetch, provider).1.entries,
                           cfg.ttlSeconds, cfg.maxKeys)
  {
    var nowSeconds := nowMillis / 1000;
    var entries := AfterGet(s.entries, keyId, nowSeconds);
    AfterGetInvariant(s.entries, keyId, nowSeconds, cfg.ttlSeconds, cfg.maxKeys);
    var r := ResolveKey(s, cfg, issuer, keyId, nowMillis, fetch, provider);
    if r.0.Ok? && GetValue(s.entries, keyId, nowSeconds).None? {
      AfterPutInvariant(entries, keyId.value, r.0.value, nowSeconds, cfg.ttlSeconds, cfg.maxKeys);
    }
  }

  // ---------------------------------------------------------------------
  // The resolver object
  // ---------------------------------------------------------------------

  /** JwksOperations: the shared cache, the configured rate and the limiters created so far. */
  class JwksOperations {
    const cache: JwksCache
    const rateLimit: int
    var rateLimiters: map<string, RateLimiter>

    ghost predicate Valid()
      reads this, cache, rateLimiters.Values
    {
      && cache.Valid()
      && (forall i, j :: i in rateLimiters && j in rateLimiters && i != j ==> rateLimiters[i] != rateLimiters[j])
    }

    ghost function Config(): ResolverConfig
    {
      ResolverConfig(cache.ttlSeconds, cache.maxKeys, rateLimit)
    }

    /** The limiters as values. */
    ghost function Limiters(): map<string, LimiterView>
      reads this, rateLimiters.Values
    {
      map i | i in rateLimiters :: LimiterView(rateLimiters[i].lastRequestTime, rateLimiters[i].minIntervalMillis)
    }

    ghost function State(): ResolverState
      reads this, cache, rateLimiters.Values
    {
      ResolverState(cache.entries, Limiters())
    }

    constructor(c: JwksCache, rate: int)
      requires c.Valid()
      ensures Valid() && cache == c && rateLimit == rate && rateLimiters == map[]
    {
      cache := c;
      rateLimit := rate;
      rateLimiters := map[];
    }

    /** computeIfAbsent(issuer, k -> new RateLimiter(rateLimit)). */
    method LimiterFor(issuer: string) returns (limiter: RateLimiter)
      requires Valid() && (issuer in rateLimiters || rateLimit != 0)
      modifies this
      ensures Valid()
      ensures issuer in rateLimiters && limiter == rateLimiters[issuer]
      ensures old(issuer in rateLimiters) ==> rateLimiters == old(rateLimiters)
      ensures old(issuer !in rateLimiters) ==>
        && fresh(limiter) && rateLimiters == old(rateLimiters)[issuer := limiter]
        && limiter.lastRequestTime == 0 && limiter.minIntervalMillis == MinIntervalMillis(rateLimit)
      ensures Limiters() == old(Limiters())[issuer := LimiterView(limiter.lastRequestTime, limiter.minIntervalMillis)]
    {
      if issuer in rateLimiters {
        limiter := rateLimiters[issuer];
        return;
      }
      ghost var before := Limiters();
      limiter := new RateLimiter(rateLimit);
      rateLimiters := rateLimiters[issuer := limiter];
      forall i | i in rateLimiters && i != issuer
        ensures Limiters()[i] == before[i]
      {
      }
    }

    /** tryAcquire on the issuer's limiter: only that limiter changes. */
    method TouchLimiter(issuer: string, limiter: RateLimiter, nowMillis: int) returns (granted: bool)
      requires Valid() && issuer in rateLimiters && limiter == rateLimiters[issuer]
      modifies limiter
      ensures Valid()
      ensures (granted, limiter.lastRequestTime) ==
              Acquire(old(limiter.lastRequestTime), limiter.minIntervalMillis, nowMillis)
      ensures Limiters() == old(Limiters())[issuer := LimiterView(limiter.lastRequestTime, limiter.minIntervalMillis)]
    {
      granted := limiter.TryAcquire(nowMillis);
      forall i | i in rateLimiters && i != issuer
        ensures rateLimiters[i].lastRequestTime == old(rateLimiters[i].lastRequestTime)
      {
        assert rateLimiters[i] != limiter;
      }
    }

    /** The limiter step of getJwkWithCache. */
    method AcquireFor(issuer: string, nowMillis: int) returns (granted: bool)
      requires Valid() && (issuer in rateLimiters || rateLimit != 0)
      modifies this, rateLimiters.Values
      ensures Valid() && cache.entries == old(cache.entries)
      ensures (granted, Limiters()) == LimitStep(old(Limiters()), rateLimit, issuer, nowMillis)
    {
      ghost var before := Limiters();
      var limiter := LimiterFor(issuer);
      ghost var view := LimiterView(limiter.lastRequestTime, limiter.minIntervalMillis);
      assert view == if issuer in before then before[issuer] else LimiterView(0, MinIntervalMillis(rateLimit));
      ghost var mid := Limiters();
      granted := TouchLimiter(issuer, limiter, nowMillis);
      ghost var step := Acquire(view.lastRequestTime, view.minIntervalMillis, nowMillis);
      ghost var after := view.(lastRequestTime := step.1);
      assert Limiters() == mid[issuer := after];
      assert mid[issuer := after] == before[issuer := after];
    }

    /** The fetch-and-cache step of getJwkWithCache. */
    method FetchAndCacheKey(issuer: string, keyId: Option<string>, nowSeconds: int,
                            fetch: Fetch, provider: KeyProvider) returns (r: Result<Jwk, KeyError>)
      requires Valid()
      modifies cache
      ensures Valid()
      ensures (r, cache.entries) == FetchAndCache(old(cache.entries), Config(), issuer, keyId, nowSeconds, fetch, provider)
    {
      var source := LoadJwkProvider(issuer, fetch);
      if source.Err? {
        return Err(source.error);
      }
      var fetched := provider(source.value, keyId);
      if fetched.Err? {
        return Err(KeyNotFound(fetched.error));
      }
      var put := cache.Put(keyId, Some(fetched.value), nowSeconds);
      if put.Fail? {
        return Err(CachePutRejected(put.error));
      }
      return Ok(fetched.value);
    }

    /** getJwkWithCache. */
    method GetJwkWithCache(issuer: Option<string>, keyId: Option<string>, nowMillis: int,
                           fetch: Fetch, provider: KeyProvider) returns (r: Result<Jwk, KeyError>)
      requires Valid()
      modifies this, cache, rateLimiters.Values
      ensures Valid()
      ensures (r, State()) == ResolveKey(old(State()), Config(), issuer, keyId, nowMillis, fetch, provider)
    {
      var nowSeconds := nowMillis / 1000;
      var cached := cache.Get(keyId, nowSeconds);
      if cached.Some? {
        return Ok(cached.value);
      }
      if issuer.None? {
        return Err(NullIssuer);
      }
      var name := issuer.value;
      if name !in rateLimiters && rateLimit == 0 {
        return Err(RateLimiterDivisionByZero);
      }
      var granted := AcquireFor(name, nowMillis);
      if !granted {
        return Err(RateLimitExceeded);
      }
      ghost var limiters := Limiters();
      r := FetchAndCacheKey(name, keyId, nowSeconds, fetch, provider);
      assert Limiters() == limiters;
    }

    /** verifierForIssuerAndKey: the key, then its type, then its algorithm. */
    method VerifierForIssuerAndKey(issuer: Option<string>, keyId: Option<string>, algorithmHint: Option<string>,
                                   nowMillis: int, fetch: Fetch, provider: KeyProvider)
      returns (r: Result<Verifier, KeyError>)
      requires Valid()
      modifies this, cache, rateLimiters.Values
      ensures Valid()
      ensures var (key, after) := ResolveKey(old(State()), Config(), issuer, keyId, nowMillis, fetch, provider);
        && State() == after
        && r == (if key.Err? then Err(key.error) else VerifierForKey(key.value, issuer, algorithmHint))
    {
      var key := GetJwkWithCache(issuer, keyId, nowMillis, fetch, provider);
      if key.Err? {
        return Err(key.error);
      }
      r := VerifierForKey(key.value, issuer, algorithmHint);
    }
  }

  /** The defaults of the shorter JwksOperations constructors: a day of TTL, ten keys, ten requests a minute. */
  const DEFAULT_CONFIG: ResolverConfig := ResolverConfig(86400, 10, 10)

  lemma DefaultConfigSpacing()
    ensures MinIntervalMillis(DEFAULT_CONFIG.rateLimit) == 6000
  {
    DefaultInterval();
  }
}
