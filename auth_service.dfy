/**
 * AuthService: the OAuth 2.0 token exchange of RFC 8693 (grantToken), logout,
 * the principal check that auto-provisions Azure AD users (verifyPrincipal),
 * and the stand-alone Azure AD token validation (validateAzureAdToken).
 *
 * The library calls are parameters (`Oracles`): JWT.decode, the discovery
 * fetch and the JwkProvider, the RSA signature check, and the minting of the
 * internal access token. The clock is `nowMillis`, read once per call.
 */
module TokenService {
  import opened Common
  import opened Jose
  import opened AzureClaims
  import opened Identity
  import KeyCache
  import opened KeyResolution
  import opened ServerHttp
  import opened Users

  // ---------------------------------------------------------------------
  // grantToken: the request parameters
  // ---------------------------------------------------------------------

  /** GrantType: the token-exchange grant of RFC 8693 section 2.1, or any other the form may name. */
  datatype GrantType = TokenExchange | OtherGrantType(urn: string)

  /** TokenType: the token type identifiers of RFC 8693 section 3 the service knows, or any other. */
  datatype TokenType = AccessToken | IdToken | OtherTokenType(urn: string)

  function GrantTypeText(g: Option<GrantType>): string
  {
    match g
    case None => "null"
    case Some(TokenExchange) => "urn:ietf:params:oauth:grant-type:token-exchange"
    case Some(OtherGrantType(urn)) => urn
  }

  function TokenTypeText(t: Option<TokenType>): string
  {
    match t
    case None => "null"
    case Some(AccessToken) => "urn:ietf:params:oauth:token-type:access_token"
    case Some(IdToken) => "urn:ietf:params:oauth:token-type:id_token"
    case Some(OtherTokenType(urn)) => urn
  }

  /** OAuthTokenExchangeForm, once decoded from the request body. */
  datatype ExchangeForm = ExchangeForm(
    grantType: Option<GrantType>,
    requestedTokenType: Option<TokenType>,
    subjectTokenType: Option<TokenType>,
    actorTokenType: Option<TokenType>,
    subjectToken: Option<string>)

  /** The requests grantToken serves: a token exchange for an access token, with a subject token type and no actor. */
  predicate AcceptableForm(form: ExchangeForm)
  {
    && form.grantType == Some(TokenExchange)
    && form.requestedTokenType == Some(AccessToken)
    && form.subjectTokenType.Some?
    && form.actorTokenType.None?
  }

  /**
   * The checks grantToken makes before it looks at the token, in order: the
   * grant type, the requested type, the subject token type, the actor token
   * type, and whether authorization is enabled at all.
   */
  function CheckExchangeForm(form: ExchangeForm, authorizationEnabled: bool): (r: Outcome<Failure>)
    ensures r.Pass? <==> AcceptableForm(form) && authorizationEnabled
    ensures r.Fail? ==> r.error.code == InvalidArgument
  {
    if form.grantType != Some(TokenExchange) then
      Fail(Failure(InvalidArgument, "Unsupported grant type: " + GrantTypeText(form.grantType)))
    else if form.requestedTokenType != Some(AccessToken) then
      Fail(Failure(InvalidArgument, "Unsupported requested token type: " + TokenTypeText(form.requestedTokenType)))
    else if form.subjectTokenType.None? then
      Fail(Failure(InvalidArgument, "Subject token type is required but was not specified"))
    else if form.actorTokenType.Some? then
      Fail(Failure(InvalidArgument, "Actor tokens not currently supported"))
    else if !authorizationEnabled then
      Fail(Failure(InvalidArgument, "Authorization is disabled"))
    else Pass
  }

  /** The grant type is checked first: a wrong one is reported whatever else the request holds. */
  lemma GrantTypeCheckedFirst(form: ExchangeForm, other: ExchangeForm, enabled: bool, otherEnabled: bool)
    requires form.grantType != Some(TokenExchange) && other.grantType == form.grantType
    ensures CheckExchangeForm(form, enabled) == CheckExchangeForm(other, otherEnabled)
    ensures CheckExchangeForm(form, enabled) ==
      Fail(Failure(InvalidArgument, "Unsupported grant type: " + GrantTypeText(form.grantType)))
  {
  }

  /** Disabled authorization is reported exactly for requests that pass every parameter check. */
  lemma DisabledAuthorizationCheckedLast(form: ExchangeForm)
    ensures CheckExchangeForm(form, false) == Fail(Failure(InvalidArgument, "Authorization is disabled")) <==>
            AcceptableForm(form)
  {
    var m := CheckExchangeForm(form, false);
    var disabled := "Authorization is disabled";
    assert disabled[0] == 'A' && disabled[1] == 'u';
    if form.grantType != Some(TokenExchange) || form.requestedTokenType != Some(AccessToken) {
      assert m.error.message[0] == 'U';
    } else if form.subjectTokenType.None? {
      var subjectMissing := "Subject token type is required but was not specified";
      assert m == Fail(Failure(InvalidArgument, subjectMissing));
      assert |subjectMissing| != |disabled|;
    } else if form.actorTokenType.Some? {
      assert m.error.message[1] == 'c';
    }
  }

  // ---------------------------------------------------------------------
  // grantToken: the response; logout
  // ---------------------------------------------------------------------

  /** TokenEndpointExtensionType, the `ext` query parameter. */
  datatype EndpointExtension = CookieExtension | OtherExtension(name: string)

  datatype AccessTokenType = Bearer

  /** OAuthTokenExchangeInfo with the Set-Cookie header grantToken may add. */
  datatype TokenResponse = TokenResponse(accessToken: string, issuedTokenType: TokenType, tokenType: AccessTokenType,
                                         setCookie: Option<SetCookie>)

  /**
   * The response for a minted token: always the token as a bearer access
   * token, and a UC_TOKEN cookie for path "/" with the configured lifetime
   * exactly when `ext=cookie` was asked for.
   */
  function ResponseFor(ext: Option<EndpointExtension>, accessToken: string, cookieTimeoutSeconds: int)
    : (r: TokenResponse)
    ensures r.accessToken == accessToken && r.issuedTokenType == AccessToken && r.tokenType == Bearer
    ensures r.setCookie.Some? <==> ext == Some(CookieExtension)
    ensures r.setCookie.Some? ==> r.setCookie.value == SetCookie(UC_TOKEN_KEY, accessToken, "/", cookieTimeoutSeconds)
  {
    var cookie := if ext == Some(CookieExtension) then Some(SetCookie(UC_TOKEN_KEY, accessToken, "/", cookieTimeoutSeconds))
                  else None;
    TokenResponse(accessToken, AccessToken, Bearer, cookie)
  }

  const EMPTY_RESPONSE: string := "{}"

  datatype LogoutResponse = LogoutResponse(status: int, body: string, setCookie: Option<SetCookie>)

  /** logout: always 200 with an empty JSON object; a sent UC_TOKEN cookie is overwritten by an empty one of max-age 0. */
  function Logout(cookies: seq<RequestCookie>): (r: LogoutResponse)
    ensures r.status == 200 && r.body == EMPTY_RESPONSE
    ensures r.setCookie.Some? <==> exists i :: 0 <= i < |cookies| && cookies[i].name == UC_TOKEN_KEY
    ensures r.setCookie.Some? ==> r.setCookie.value == SetCookie(UC_TOKEN_KEY, "", "/", 0)
  {
    if FirstCookie(cookies, UC_TOKEN_KEY).Some? then LogoutResponse(200, EMPTY_RESPONSE, Some(SetCookie(UC_TOKEN_KEY, "", "/", 0)))
    else LogoutResponse(200, EMPTY_RESPONSE, None)
  }

  /** Logout depends only on whether a session cookie was sent, not on its value or on the other cookies. */
  lemma LogoutDependsOnlyOnCookiePresence(cookies: seq<RequestCookie>, value: string)
    requires exists i :: 0 <= i < |cookies| && cookies[i].name == UC_TOKEN_KEY
    ensures Logout([RequestCookie(UC_TOKEN_KEY, value)]) == Logout(cookies)
  {
    assert [RequestCookie(UC_TOKEN_KEY, value)][0].name == UC_TOKEN_KEY;
  }

  // ---------------------------------------------------------------------
  // verifyPrincipal
  // ---------------------------------------------------------------------

  const AZURE_LOGIN_HOST: string := "login.microsoftonline.com"
  const AZURE_STS_HOST: string := "sts.windows.net"

  /** An issuer is an Azure AD issuer when it names either Azure host anywhere. */
  predicate IsAzureIssuer(issuer: Option<string>)
  {
    issuer.Some? && (Contains(issuer.value, AZURE_LOGIN_HOST) || Contains(issuer.value, AZURE_STS_HOST))
  }

  /** The address an Azure AD user is known by: the email claim unless null or blank, else preferred_username. */
  function ProvisioningEmail(c: TokenClaims): (r: Option<string>)
    ensures !IsNullOrBlank(c.email) ==> r == c.email
    ensures IsNullOrBlank(c.email) ==> r == c.preferredUsername
  {
    if IsNullOrBlank(c.email) then c.preferredUsername else c.email
  }

  /** The display name of a provisioned user: the name claim unless null or blank, else the address. */
  function DisplayNameFor(c: TokenClaims, email: string): (r: string)
    ensures !IsNullOrBlank(c.name) ==> r == c.name.value
    ensures IsNullOrBlank(c.name) ==> r == email
  {
    if IsNullOrBlank(c.name) then email else c.name.value
  }

  /** Why verifyPrincipal throws: a refusal, or the NullPointerException of a token without a string subject. */
  datatype PrincipalError = PrincipalRefused(failure: Failure) | NullSubject

  /** The Azure AD branch: known users must be enabled, unknown ones are created enabled. */
  function AzurePrincipal(users: map<string, User>, jwt: DecodedJwt, newUserId: string)
    : (Outcome<PrincipalError>, map<string, User>)
  {
    var claims := ExtractAzureAdClaims(Some(jwt)).value;
    var email := ProvisioningEmail(claims);
    if IsNullOrBlank(email) then
      (Fail(PrincipalRefused(Failure(InvalidArgument, "Azure AD token missing email or preferred_username claim"))), users)
    else
      match LookupUser(users, email)
      case Some(u) =>
        if u.state == Enabled then (Pass, users)
        else (Fail(PrincipalRefused(Failure(PermissionDenied, "User is disabled: " + email.value))), users)
      case None =>
        (Pass, users[email.value := NewUser(newUserId, DisplayNameFor(claims, email.value), email.value, claims.objectId)])
  }

  /** The principal of an internal token: the `email` claim when the payload has one, else `sub`. */
  function InternalSubject(jwt: DecodedJwt): Option<string>
  {
    if "email" in jwt.claims then AsString(jwt.claims["email"]) else Subject(jwt)
  }

  /** The internal branch: "admin" always passes, anyone else must be an enabled user. */
  function InternalPrincipal(users: map<string, User>, jwt: DecodedJwt): (r: Outcome<PrincipalError>)
    ensures r.Pass? <==> InternalSubject(jwt).Some? && (InternalSubject(jwt) == Some("admin") || IsEnabledUser(users, InternalSubject(jwt)))
    ensures r == Fail(NullSubject) <==> InternalSubject(jwt).None?
  {
    var subject := InternalSubject(jwt);
    if subject.None? then Fail(NullSubject)
    else if subject.value == "admin" then Pass
    else if IsEnabledUser(users, subject) then Pass
    else Fail(PrincipalRefused(Failure(InvalidArgument, "User not allowed: " + subject.value)))
  }

  /** verifyPrincipal: the outcome and the user store afterwards. */
  function VerifyPrincipal(users: map<string, User>, jwt: DecodedJwt, newUserId: string)
    : (Outcome<PrincipalError>, map<string, User>)
  {
    if IsAzureIssuer(Issuer(jwt)) then AzurePrincipal(users, jwt, newUserId)
    else (InternalPrincipal(users, jwt), users)
  }

  /** A first-seen Azure AD user is created, enabled, under the resolved address, and nothing else changes. */
  lemma AzureUserProvisioned(users: map<string, User>, jwt: DecodedJwt, newUserId: string)
    requires IsAzureIssuer(Issuer(jwt))
    requires var email := ProvisioningEmail(ExtractAzureAdClaims(Some(jwt)).value);
      !IsNullOrBlank(email) && email.value !in users
    ensures var claims := ExtractAzureAdClaims(Some(jwt)).value;
      var email := ProvisioningEmail(claims).value;
      && VerifyPrincipal(users, jwt, newUserId).0 == Pass
      && VerifyPrincipal(users, jwt, newUserId).1 ==
         users[email := User(newUserId, DisplayNameFor(claims, email), Some(email), claims.objectId, Enabled)]
      && VerifyPrincipal(users, jwt, newUserId).1.Keys == users.Keys + {email}
      && |VerifyPrincipal(users, jwt, newUserId).1| == |users| + 1
  {
  }

  /** An Azure AD token with neither a usable email nor preferred_username is refused, and no user is created. */
  lemma AzureMissingEmailRefused(users: map<string, User>, jwt: DecodedJwt, newUserId: string)
    requires IsAzureIssuer(Issuer(jwt))
    requires IsNullOrBlank(ProvisioningEmail(ExtractAzureAdClaims(Some(jwt)).value))
    ensures VerifyPrincipal(users, jwt, newUserId) ==
      (Fail(PrincipalRefused(Failure(InvalidArgument, "Azure AD token missing email or preferred_username claim"))), users)
  {
  }

  /** A known Azure AD user passes exactly when enabled; the store is left as it is either way. */
  lemma AzureKnownUser(users: map<string, User>, jwt: DecodedJwt, newUserId: string)
    requires IsAzureIssuer(Issuer(jwt))
    requires var email := ProvisioningEmail(ExtractAzureAdClaims(Some(jwt)).value);
      !IsNullOrBlank(email) && email.value in users
    ensures var email := ProvisioningEmail(ExtractAzureAdClaims(Some(jwt)).value).value;
      && VerifyPrincipal(users, jwt, newUserId).1 == users
      && (users[email].state == Enabled ==> VerifyPrincipal(users, jwt, newUserId).0 == Pass)
      && (users[email].state != Enabled ==>
            VerifyPrincipal(users, jwt, newUserId).0 ==
            Fail(PrincipalRefused(Failure(PermissionDenied, "User is disabled: " + email))))
  {
  }

  /** Provisioning happens once: after a first acceptance the same token passes again with no further change. */
  lemma ProvisioningIsIdempotent(users: map<string, User>, jwt: DecodedJwt, id1: string, id2: string)
    requires VerifyPrincipal(users, jwt, id1).0.Pass?
    ensures var after := VerifyPrincipal(users, jwt, id1).1;
      VerifyPrincipal(after, jwt, id2) == (Pass, after)
  {
    if IsAzureIssuer(Issuer(jwt)) {
      var claims := ExtractAzureAdClaims(Some(jwt)).value;
      var email := ProvisioningEmail(claims);
      var after := VerifyPrincipal(users, jwt, id1).1;
      assert email.value in after && after[email.value].state == Enabled;
    }
  }

  /** Internal tokens never change the store, and "admin" passes whether or not such a user exists. */
  lemma InternalPrincipalChecks(users: map<string, User>, jwt: DecodedJwt, newUserId: string)
    requires !IsAzureIssuer(Issuer(jwt))
    ensures VerifyPrincipal(users, jwt, newUserId).1 == users
    ensures InternalSubject(jwt) == Some("admin") ==> VerifyPrincipal(users, jwt, newUserId).0 == Pass
    ensures InternalSubject(jwt).Some? && InternalSubject(jwt) != Some("admin") && !IsEnabledUser(users, InternalSubject(jwt)) ==>
      VerifyPrincipal(users, jwt, newUserId).0 ==
        Fail(PrincipalRefused(Failure(InvalidArgument, "User not allowed: " + InternalSubject(jwt).value)))
  {
  }

  // ---------------------------------------------------------------------
  // Token verification through the resolver
  // ---------------------------------------------------------------------

  /** JWT.decode of a token text; a null text does not decode. */
  type Decoder = string -> Option<DecodedJwt>

  /** The library and environment calls a request makes. */
  datatype Oracles = Oracles(
    decode: Decoder,
    fetch: Fetch,
    provider: KeyProvider,
    signatureValid: SignatureCheck,
    mintToken: DecodedJwt -> string)

  function DecodeToken(decode: Decoder, token: Option<string>): Option<DecodedJwt>
  {
    if token.None? then None else decode(token.value)
  }

  /** Why a request fails. */
  datatype AuthError =
    | Refused(failure: Failure)
    | MalformedToken
    | KeyResolutionFailed(keyError: KeyError)
    | VerificationFailed(verificationError: VerificationError)
    | NullPrincipal

  /**
   * verifierForIssuerAndKey followed by verify: the token's own issuer, key
   * id and algorithm select the key, and the verifier built for it checks the
   * token.
   */
  function VerifyToken(s: ResolverState, cfg: ResolverConfig, jwt: DecodedJwt, nowMillis: int, o: Oracles)
    : (Result<DecodedJwt, AuthError>, ResolverState)
  {
    var (key, after) := ResolveKey(s, cfg, Issuer(jwt), jwt.keyId, nowMillis, o.fetch, o.provider);
    if key.Err? then (Err(KeyResolutionFailed(key.error)), after)
    else
      match VerifierForKey(key.value, Issuer(jwt), jwt.algorithm)
      case Err(e) => (Err(KeyResolutionFailed(e)), after)
      case Ok(v) =>
        match Verify(v, jwt, o.signatureValid, nowMillis / 1000)
        case Err(e) => (Err(VerificationFailed(e)), after)
        case Ok(t) => (Ok(t), after)
  }

  /** A verified token is the decoded one, signed with a key of RSA type under the algorithm its header names. */
  lemma VerifiedTokenIsSigned(s: ResolverState, cfg: ResolverConfig, jwt: DecodedJwt, nowMillis: int, o: Oracles)
    requires VerifyToken(s, cfg, jwt, nowMillis, o).0.Ok?
    ensures VerifyToken(s, cfg, jwt, nowMillis, o).0.value == jwt
    ensures var key := ResolveKey(s, cfg, Issuer(jwt), jwt.keyId, nowMillis, o.fetch, o.provider).0;
      && key.Ok? && IsRsaKey(key.value)
      && var v := VerifierForKey(key.value, Issuer(jwt), jwt.algorithm).value;
         && o.signatureValid(v.algorithm, key.value, jwt.token)
         && jwt.algorithm == Some(AlgorithmName(v.algorithm))
         && (Issuer(jwt).Some? ==> v.issuer == Issuer(jwt))
  {
  }

  /** Verification keeps the key cache's invariant. */
  lemma VerifyTokenKeepsCacheInvariant(s: ResolverState, cfg: ResolverConfig, jwt: DecodedJwt, nowMillis: int,
                                       o: Oracles)
    requires cfg.maxKeys > 0 && KeyCache.CacheInvariant(s.entries, cfg.ttlSeconds, cfg.maxKeys)
    ensures KeyCache.CacheInvariant(VerifyToken(s, cfg, jwt, nowMillis, o).1.entries, cfg.ttlSeconds, cfg.maxKeys)
  {
    ResolveKeepsCacheInvariant(s, cfg, Issuer(jwt), jwt.keyId, nowMillis, o.fetch, o.provider);
  }

  /** VerifyToken on the resolver object. */
  method VerifyTokenWith(ops: JwksOperations, jwt: DecodedJwt, nowMillis: int, o: Oracles)
    returns (r: Result<DecodedJwt, AuthError>)
    requires ops.Valid()
    modifies ops, ops.cache, ops.rateLimiters.Values
    ensures ops.Valid()
    ensures (r, ops.State()) == VerifyToken(old(ops.State()), ops.Config(), jwt, nowMillis, o)
  {
    var verifier := ops.VerifierForIssuerAndKey(Issuer(jwt), jwt.keyId, jwt.algorithm, nowMillis, o.fetch, o.provider);
    if verifier.Err? {
      return Err(KeyResolutionFailed(verifier.error));
    }
    var verified := Verify(verifier.value, jwt, o.signatureValid, nowMillis / 1000);
    if verified.Err? {
      return Err(VerificationFailed(verified.error));
    }
    return Ok(verified.value);
  }

  // ---------------------------------------------------------------------
  // grantToken as a function of the state
  // ---------------------------------------------------------------------

  /** What grantToken reads and changes: the resolver and the user store. */
  datatype ServiceState = ServiceState(resolver: ResolverState, users: map<string, User>)

  /**
   * The end of grantToken once the subject token is verified: the principal
   * check, then the minted token in the response. `newUserId` is the id a
   * provisioned user receives. Returns the result and the user store.
   */
  function Issue(users: map<string, User>, jwt: DecodedJwt, cookieTimeoutSeconds: int,
                 ext: Option<EndpointExtension>, o: Oracles, newUserId: string)
    : (Result<TokenResponse, AuthError>, map<string, User>)
  {
    var (principal, after) := VerifyPrincipal(users, jwt, newUserId);
    match principal
    case Fail(PrincipalRefused(f)) => (Err(Refused(f)), after)
    case Fail(NullSubject) => (Err(NullPrincipal), after)
    case Pass => (Ok(ResponseFor(ext, o.mintToken(jwt), cookieTimeoutSeconds)), after)
  }

  /**
   * grantToken: the parameter checks, the decoding and verification of the
   * subject token, then the principal check and the issued token.
   */
  function Exchange(s: ServiceState, cfg: ResolverConfig, authorizationEnabled: bool, cookieTimeoutSeconds: int,
                    ext: Option<EndpointExtension>, form: ExchangeForm, nowMillis: int, o: Oracles, newUserId: string)
    : (Result<TokenResponse, AuthError>, ServiceState)
  {
    match CheckExchangeForm(form, authorizationEnabled)
    case Fail(f) => (Err(Refused(f)), s)
    case Pass =>
      match DecodeToken(o.decode, form.subjectToken)
      case None => (Err(MalformedToken), s)
      case Some(jwt) =>
        var (verified, resolver) := VerifyToken(s.resolver, cfg, jwt, nowMillis, o);
        if verified.Err? then (Err(verified.error), s.(resolver := resolver))
        else
          var (r, users) := Issue(s.users, verified.value, cookieTimeoutSeconds, ext, o, newUserId);
          (r, ServiceState(resolver, users))
  }

  /** A request failing the parameter checks is refused before the token is looked at: no state changes, no call is made. */
  lemma RefusedRequestTouchesNothing(s: ServiceState, cfg: ResolverConfig, enabled: bool, timeout: int,
                                     ext: Option<EndpointExtension>, form: ExchangeForm, nowMillis: int,
                                     o1: Oracles, o2: Oracles, id1: string, id2: string)
    requires CheckExchangeForm(form, enabled).Fail?
    ensures Exchange(s, cfg, enabled, timeout, ext, form, nowMillis, o1, id1) ==
            Exchange(s, cfg, enabled, timeout, ext, form, nowMillis, o2, id2)
    ensures Exchange(s, cfg, enabled, timeout, ext, form, nowMillis, o1, id1) ==
            (Err(Refused(CheckExchangeForm(form, enabled).error)), s)
  {
  }

  /**
   * A token is issued only for an acceptable request whose subject token
   * decodes, verifies against its issuer's key and names an accepted
   * principal; the token minted is the one for that verified token, and the
   * cookie is set exactly when asked for.
   */
  lemma IssuedOnlyForVerifiedPrincipals(s: ServiceState, cfg: ResolverConfig, enabled: bool, timeout: int,
                                        ext: Option<EndpointExtension>, form: ExchangeForm, nowMillis: int,
                                        o: Oracles, newUserId: string)
    requires Exchange(s, cfg, enabled, timeout, ext, form, nowMillis, o, newUserId).0.Ok?
    ensures AcceptableForm(form) && enabled
    ensures DecodeToken(o.decode, form.subjectToken).Some?
    ensures var jwt := DecodeToken(o.decode, form.subjectToken).value;
      && VerifyToken(s.resolver, cfg, jwt, nowMillis, o).0 == Ok(jwt)
      && VerifyPrincipal(s.users, jwt, newUserId).0.Pass?
      && Exchange(s, cfg, enabled, timeout, ext, form, nowMillis, o, newUserId).0.value ==
         ResponseFor(ext, o.mintToken(jwt), timeout)
    ensures var r := Exchange(s, cfg, enabled, timeout, ext, form, nowMillis, o, newUserId).0.value;
      r.setCookie.Some? <==> ext == Some(CookieExtension)
  {
    var jwt := DecodeToken(o.decode, form.subjectToken).value;
    VerifiedTokenIsSigned(s.resolver, cfg, jwt, nowMillis, o);
  }

  /** Token exchange keeps the key cache's invariant. */
  lemma ExchangeKeepsCacheInvariant(s: ServiceState, cfg: ResolverConfig, enabled: bool, timeout: int,
                                    ext: Option<EndpointExtension>, form: ExchangeForm, nowMillis: int,
                                    o: Oracles, newUserId: string)
    requires cfg.maxKeys > 0 && KeyCache.CacheInvariant(s.resolver.entries, cfg.ttlSeconds, cfg.maxKeys)
    ensures KeyCache.CacheInvariant(Exchange(s, cfg, enabled, timeout, ext, form, nowMillis, o, newUserId).1.resolver.entries,
                           cfg.ttlSeconds, cfg.maxKeys)
  {
    var jwt := DecodeToken(o.decode, form.subjectToken);
    if CheckExchangeForm(form, enabled).Pass? && jwt.Some? {
      VerifyTokenKeepsCacheInvariant(s.resolver, cfg, jwt.value, nowMillis, o);
    }
  }

  // ---------------------------------------------------------------------
  // validateAzureAdToken
  // ---------------------------------------------------------------------

  const AZURE_LOGIN_PREFIX: string := "https://" + AZURE_LOGIN_HOST + "/"
  const AZURE_STS_PREFIX: string := "https://" + AZURE_STS_HOST + "/"

  /** validateIssuer: a non-blank issuer under one of the two Azure AD issuer prefixes. */
  predicate ValidateIssuer(issuer: Option<string>)
  {
    !IsNullOrBlank(issuer) && (StartsWith(issuer.value, AZURE_LOGIN_PREFIX) || StartsWith(issuer.value, AZURE_STS_PREFIX))
  }

  /** validateAudience: both present and equal. */
  predicate ValidateAudience(audience: Option<string>, expectedAudience: Option<string>)
  {
    audience.Some? && expectedAudience.Some? && audience.value == expectedAudience.value
  }

  /** A host behind "https://" is contained in the URL. */
  lemma HostInPrefix(s: string, host: string)
    requires StartsWith(s, "https://" + host + "/")
    ensures Contains(s, host)
  {
    var prefix := "https://" + host + "/";
    assert s[8..8 + |host|] == prefix[8..8 + |host|];
    assert prefix[8..8 + |host|] == host;
    ContainsAt(s, host, 8);
  }

  /** An issuer validateIssuer accepts is one the Azure AD routing recognises. */
  lemma ValidIssuerIsAzure(issuer: Option<string>)
    requires ValidateIssuer(issuer)
    ensures IsAzureIssuer(issuer)
  {
    if StartsWith(issuer.value, AZURE_LOGIN_PREFIX) {
      HostInPrefix(issuer.value, AZURE_LOGIN_HOST);
    } else {
      HostInPrefix(issuer.value, AZURE_STS_HOST);
    }
  }

  /** The checks on the extracted claims, in order: issuer, audience, expiry, not-before, required claims. */
  function AzureClaimChecks(c: TokenClaims, expectedAudience: Option<string>, nowSeconds: int)
    : (r: Result<UserIdentity, AuthError>)
    ensures r.Ok? <==>
      && ValidateIssuer(c.issuer) && ValidateAudience(c.audience, expectedAudience)
      && !IsExpired(c, nowSeconds) && !IsNotYetValid(c, nowSeconds) && Validate(c).Pass?
    ensures r.Ok? ==> FromAzureAdToken(Some(c)) == Ok(r.value)
    ensures r.Err? ==> r.error.Refused? && r.error.failure.code == InvalidArgument
  {
    if !ValidateIssuer(c.issuer) then
      Err(Refused(Failure(InvalidArgument, "Invalid issuer: " + JavaString(c.issuer))))
    else if !ValidateAudience(c.audience, expectedAudience) then
      Err(Refused(Failure(InvalidArgument, "Invalid audience: " + JavaString(c.audience) + ", expected: " + JavaString(expectedAudience))))
    else if IsExpired(c, nowSeconds) then Err(Refused(Failure(InvalidArgument, "Token has expired")))
    else if IsNotYetValid(c, nowSeconds) then Err(Refused(Failure(InvalidArgument, "Token is not yet valid")))
    else
      match Validate(c)
      case Fail(k) => Err(Refused(Failure(InvalidArgument, "Invalid token claims: " + MissingClaimMessage(k))))
      case Pass => Ok(FromAzureAdToken(Some(c)).value)
  }

  /** A token without `exp` is reported as expired, before the required-claims check could name the claim. */
  lemma MissingExpiryReportedAsExpired(c: TokenClaims, expectedAudience: Option<string>, nowSeconds: int)
    requires ValidateIssuer(c.issuer) && ValidateAudience(c.audience, expectedAudience) && c.expiration.None?
    ensures AzureClaimChecks(c, expectedAudience, nowSeconds) == Err(Refused(Failure(InvalidArgument, "Token has expired")))
  {
  }

  /**
   * validateAzureAdToken: a blank token, a token that does not decode and an
   * issuer without the login.microsoftonline.com host are refused before any
   * key is looked up; then the token is verified and its claims checked.
   */
  function AzureTokenCheck(s: ResolverState, cfg: ResolverConfig, token: Option<string>,
                           expectedAudience: Option<string>, nowMillis: int, o: Oracles)
    : (Result<UserIdentity, AuthError>, ResolverState)
  {
    if IsNullOrBlank(token) then (Err(Refused(Failure(InvalidArgument, "Token is required"))), s)
    else
      match o.decode(token.value)
      case None => (Err(Refused(Failure(InvalidArgument, "Invalid JWT token"))), s)
      case Some(jwt) =>
        var issuer := Issuer(jwt);
        if issuer.None? || !Contains(issuer.value, AZURE_LOGIN_HOST) then
          (Err(Refused(Failure(InvalidArgument, "Invalid Azure AD issuer: " + JavaString(issuer)))), s)
        else
          var (verified, after) := VerifyToken(s, cfg, jwt, nowMillis, o);
          if verified.Err? then (Err(verified.error), after)
          else (AzureClaimChecks(ExtractAzureAdClaims(Some(verified.value)).value, expectedAudience, nowMillis / 1000), after)
  }

  /** An sts.windows.net token is refused here before any key lookup, whatever the network would answer. */
  lemma StsIssuerRefusedEarly(s: ResolverState, cfg: ResolverConfig, token: string, expectedAudience: Option<string>,
                              nowMillis: int, o1: Oracles, o2: Oracles)
    requires !IsBlank(token) && o1.decode(token).Some? && o2.decode == o1.decode
    requires var issuer := Issuer(o1.decode(token).value); issuer.Some? && !Contains(issuer.value, AZURE_LOGIN_HOST)
    ensures AzureTokenCheck(s, cfg, Some(token), expectedAudience, nowMillis, o1) ==
            AzureTokenCheck(s, cfg, Some(token), expectedAudience, nowMillis, o2)
    ensures AzureTokenCheck(s, cfg, Some(token), expectedAudience, nowMillis, o1).1 == s
    ensures AzureTokenCheck(s, cfg, Some(token), expectedAudience, nowMillis, o1).0.Err?
  {
  }

  /**
   * An identity is returned only for a verified token whose extracted claims
   * carry an Azure AD issuer, the expected audience, a live validity window
   * and every required claim; it is the identity those claims make.
   */
  lemma AzureTokenAccepted(s: ResolverState, cfg: ResolverConfig, token: Option<string>,
                           expectedAudience: Option<string>, nowMillis: int, o: Oracles)
    requires AzureTokenCheck(s, cfg, token, expectedAudience, nowMillis, o).0.Ok?
    ensures !IsNullOrBlank(token) && o.decode(token.value).Some?
    ensures var jwt := o.decode(token.value).value;
      var c := ExtractAzureAdClaims(Some(jwt)).value;
      && VerifyToken(s, cfg, jwt, nowMillis, o).0 == Ok(jwt)
      && IsAzureIssuer(c.issuer) && expectedAudience.Some? && c.audience == expectedAudience
      && !IsExpired(c, nowMillis / 1000) && !IsNotYetValid(c, nowMillis / 1000)
      && FromAzureAdToken(Some(c)) == Ok(AzureTokenCheck(s, cfg, token, expectedAudience, nowMillis, o).0.value)
  {
    var jwt := o.decode(token.value).value;
    VerifiedTokenIsSigned(s, cfg, jwt, nowMillis, o);
    ValidIssuerIsAzure(ExtractAzureAdClaims(Some(jwt)).value.issuer);
  }

  // ---------------------------------------------------------------------
  // The service object
  // ---------------------------------------------------------------------

  class AuthService {
    const jwks: JwksOperations
    const userStore: UserStore
    const authorizationEnabled: bool
    /** Duration.parse of the configured cookie timeout, in seconds. */
    const cookieTimeoutSeconds: int

    ghost predicate Valid()
      reads this, jwks, jwks.cache, jwks.rateLimiters.Values
    {
      jwks.Valid()
    }

    ghost function State(): ServiceState
      reads this, jwks, jwks.cache, jwks.rateLimiters.Values, userStore
    {
      ServiceState(jwks.State(), userStore.byEmail)
    }

    constructor(ops: JwksOperations, store: UserStore, enabled: bool, cookieTimeout: int)
      requires ops.Valid()
      ensures Valid()
      ensures jwks == ops && userStore == store && authorizationEnabled == enabled && cookieTimeoutSeconds == cookieTimeout
    {
      jwks := ops;
      userStore := store;
      authorizationEnabled := enabled;
      cookieTimeoutSeconds := cookieTimeout;
    }

    /** verifyPrincipal. */
    method CheckPrincipal(jwt: DecodedJwt, newUserId: string) returns (r: Outcome<PrincipalError>)
      modifies userStore
      ensures (r, userStore.byEmail) == VerifyPrincipal(old(userStore.byEmail), jwt, newUserId)
    {
      if IsAzureIssuer(Issuer(jwt)) {
        var claims := ExtractAzureAdClaims(Some(jwt)).value;
        var email := claims.email;
        if IsNullOrBlank(email) {
          email := claims.preferredUsername;
        }
        if IsNullOrBlank(email) {
          return Fail(PrincipalRefused(Failure(InvalidArgument, "Azure AD token missing email or preferred_username claim")));
        }
        var existing := userStore.GetUserByEmail(email);
        if existing.Some? {
          if existing.value.state == Enabled {
            return Pass;
          }
          return Fail(PrincipalRefused(Failure(PermissionDenied, "User is disabled: " + email.value)));
        }
        var displayName := claims.name;
        var name := if IsNullOrBlank(displayName) then email.value else displayName.value;
        var created := userStore.CreateUser(newUserId, name, email.value, claims.objectId);
        return Pass;
      }
      var subject := InternalSubject(jwt);
      if subject.None? {
        return Fail(NullSubject);
      }
      if subject.value == "admin" {
        return Pass;
      }
      var user := userStore.GetUserByEmail(subject);
      if user.Some? && user.value.state == Enabled {
        return Pass;
      }
      return Fail(PrincipalRefused(Failure(InvalidArgument, "User not allowed: " + subject.value)));
    }

    /** The principal check and the response of grantToken. */
    method IssueFor(jwt: DecodedJwt, ext: Option<EndpointExtension>, o: Oracles, newUserId: string)
      returns (r: Result<TokenResponse, AuthError>)
      modifies userStore
      ensures (r, userStore.byEmail) == Issue(old(userStore.byEmail), jwt, cookieTimeoutSeconds, ext, o, newUserId)
    {
      var principal := CheckPrincipal(jwt, newUserId);
      if principal.Fail? {
        if principal.error.NullSubject? {
          return Err(NullPrincipal);
        }
        return Err(Refused(principal.error.failure));
      }
      var accessToken := o.mintToken(jwt);
      return Ok(ResponseFor(ext, accessToken, cookieTimeoutSeconds));
    }

    /** grantToken. */
    method GrantToken(ext: Option<EndpointExtension>, form: ExchangeForm, nowMillis: int, o: Oracles, newUserId: string)
      returns (r: Result<TokenResponse, AuthError>)
      requires Valid()
      modifies jwks, jwks.cache, jwks.rateLimiters.Values, userStore
      ensures Valid()
      ensures (r, State()) ==
        Exchange(old(State()), jwks.Config(), authorizationEnabled, cookieTimeoutSeconds, ext, form, nowMillis, o, newUserId)
    {
      var check := CheckExchangeForm(form, authorizationEnabled);
      if check.Fail? {
        return Err(Refused(check.error));
      }
      var decoded := DecodeToken(o.decode, form.subjectToken);
      if decoded.None? {
        return Err(MalformedToken);
      }
      ghost var users := userStore.byEmail;
      var verified := VerifyTokenWith(jwks, decoded.value, nowMillis, o);
      assert userStore.byEmail == users;
      if verified.Err? {
        return Err(verified.error);
      }
      ghost var resolver := jwks.State();
      r := IssueFor(verified.value, ext, o, newUserId);
      assert jwks.State() == resolver;
    }

    /** validateAzureAdToken. */
    method ValidateAzureAdToken(token: Option<string>, expectedAudience: Option<string>, nowMillis: int, o: Oracles)
      returns (r: Result<UserIdentity, AuthError>)
      requires Valid()
      modifies jwks, jwks.cache, jwks.rateLimiters.Values
      ensures Valid()
      ensures (r, jwks.State()) == AzureTokenCheck(old(jwks.State()), jwks.Config(), token, expectedAudience, nowMillis, o)
    {
      if IsNullOrBlank(token) {
        return Err(Refused(Failure(InvalidArgument, "Token is required")));
      }
      var decoded := o.decode(token.value);
      if decoded.None? {
        return Err(Refused(Failure(InvalidArgument, "Invalid JWT token")));
      }
      var issuer := Issuer(decoded.value);
      if issuer.None? || !Contains(issuer.value, AZURE_LOGIN_HOST) {
        return Err(Refused(Failure(InvalidArgument, "Invalid Azure AD issuer: " + JavaString(issuer))));
      }
      var verified := VerifyTokenWith(jwks, decoded.value, nowMillis, o);
      if verified.Err? {
        return Err(verified.error);
      }
      var claims := ExtractAzureAdClaims(Some(verified.value)).value;
      r := AzureClaimChecks(claims, expectedAudience, nowMillis / 1000);
    }
  }
}
