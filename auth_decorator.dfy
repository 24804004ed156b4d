/**
 * AuthDecorator: the gate every authenticated request passes. It takes the
 * token from the `Authorization: Bearer` header (the form of section 2.1 of
 * RFC 6750, with the prefix matched case-sensitively) or else from the
 * UC_TOKEN cookie, dispatches on the token's issuer, and on success records
 * the decoded token, and for Azure AD the user identity, for the handlers.
 *
 * The user store is only read here.
 */
module RequestAuthorization {
  import opened Common
  import opened Jose
  import opened AzureClaims
  import opened Identity
  import opened KeyResolution
  import opened Discovery
  import opened ServerHttp
  import opened Users
  import opened TokenService

  const BEARER_PREFIX: string := "Bearer "

  const NO_AUTHORIZATION: Failure := Failure(Unauthenticated, "No authorization found.")

  /** getAccessTokenFromCookieOrAuthHeader: a bearer header wins, then the cookie, else the request is unauthenticated. */
  function TokenFromRequest(header: Option<string>, cookie: Option<string>): (r: Result<string, Failure>)
    ensures r.Err? <==> (header.None? || !StartsWith(header.value, BEARER_PREFIX)) && cookie.None?
    ensures r.Err? ==> r.error == NO_AUTHORIZATION
  {
    if header.Some? && StartsWith(header.value, BEARER_PREFIX) then Ok(header.value[|BEARER_PREFIX|..])
    else if cookie.Some? then Ok(cookie.value)
    else Err(NO_AUTHORIZATION)
  }

  /** The token of a bearer header is what follows the prefix, whatever cookie is sent. */
  lemma BearerHeaderRoundTrip(token: string, cookie: Option<string>)
    ensures TokenFromRequest(Some(BEARER_PREFIX + token), cookie) == Ok(token)
  {
    assert (BEARER_PREFIX + token)[..|BEARER_PREFIX|] == BEARER_PREFIX;
    assert (BEARER_PREFIX + token)[|BEARER_PREFIX|..] == token;
  }

  /** A header without the exact prefix is ignored, not refused: the cookie decides. */
  lemma OtherHeaderFallsThrough(header: string, cookie: Option<string>)
    requires !StartsWith(header, BEARER_PREFIX)
    ensures TokenFromRequest(Some(header), cookie) == TokenFromRequest(None, cookie)
  {
  }

  /** The prefix is case-sensitive: a lower-case scheme is not a bearer header. */
  lemma LowerCaseSchemeIgnored(token: string)
    ensures TokenFromRequest(Some("bearer " + token), None) == Err(NO_AUTHORIZATION)
  {
    assert ("bearer " + token)[0] == 'b';
    assert BEARER_PREFIX[0] == 'B';
  }

  /** What serve records in the request context: the decoded token always, the identity for Azure AD only. */
  datatype RequestAttributes = RequestAttributes(decodedJwt: DecodedJwt, userIdentity: Option<UserIdentity>)

  const AZURE_VALIDATION_FAILED: Failure := Failure(PermissionDenied, "Azure AD token validation failed")

  /** The Azure AD branch after verification: the extracted claims must validate; the identity is built from them. */
  function AzureIdentity(jwt: DecodedJwt): (r: Option<UserIdentity>)
    ensures r.Some? <==> Validate(ExtractAzureAdClaims(Some(jwt)).value).Pass?
    ensures r.Some? ==> FromAzureAdToken(Some(ExtractAzureAdClaims(Some(jwt)).value)) == Ok(r.value)
  {
    var claims := ExtractAzureAdClaims(Some(jwt)).value;
    match FromAzureAdToken(Some(claims))
    case Ok(identity) => Some(identity)
    case Err(_) => None
  }

  /**
   * serve, up to the call of the next handler: the result (the attributes
   * recorded, or why the request fails) and the resolver state afterwards.
   */
  function Authorize(s: ResolverState, cfg: ResolverConfig, users: map<string, User>, header: Option<string>,
                     cookies: seq<RequestCookie>, nowMillis: int, o: Oracles)
    : (Result<RequestAttributes, AuthError>, ResolverState)
  {
    match TokenFromRequest(header, FirstCookie(cookies, UC_TOKEN_KEY))
    case Err(f) => (Err(Refused(f)), s)
    case Ok(token) =>
      match o.decode(token)
      case None => (Err(MalformedToken), s)
      case Some(jwt) => AuthorizeDecoded(s, cfg, users, jwt, nowMillis, o)
  }

  /** The dispatch of serve on the issuer of the decoded token. */
  function AuthorizeDecoded(s: ResolverState, cfg: ResolverConfig, users: map<string, User>, jwt: DecodedJwt,
                            nowMillis: int, o: Oracles)
    : (Result<RequestAttributes, AuthError>, ResolverState)
  {
    var issuer := Issuer(jwt);
    if IsAzureIssuer(issuer) then
      var (verified, after) := VerifyToken(s, cfg, jwt, nowMillis, o);
      if verified.Err? then (Err(Refused(AZURE_VALIDATION_FAILED)), after)
      else
        match AzureIdentity(verified.value)
        case None => (Err(Refused(AZURE_VALIDATION_FAILED)), after)
        case Some(identity) => (Ok(RequestAttributes(verified.value, Some(identity))), after)
    else if issuer == Some(INTERNAL) then
      var (verified, after) := VerifyToken(s, cfg, jwt, nowMillis, o);
      if verified.Err? then (Err(verified.error), after)
      else
        var subject := Subject(verified.value);
        if IsEnabledUser(users, subject) then (Ok(RequestAttributes(verified.value, None)), after)
        else (Err(Refused(Failure(PermissionDenied, "User not allowed: " + JavaString(subject)))), after)
    else
      (Err(Refused(Failure(PermissionDenied, "Invalid or unsupported token issuer: " + JavaString(issuer)))), s)
  }

  /** The token serve decodes. */
  function RequestToken(header: Option<string>, cookies: seq<RequestCookie>): Result<string, Failure>
  {
    TokenFromRequest(header, FirstCookie(cookies, UC_TOKEN_KEY))
  }

  /**
   * A token from neither an Azure AD issuer nor the internal one is refused
   * with no key fetched and no limiter touched, whatever the network would
   * answer.
   */
  lemma UnknownIssuerFetchesNothing(s: ResolverState, cfg: ResolverConfig, users: map<string, User>,
                                    header: Option<string>, cookies: seq<RequestCookie>, nowMillis: int,
                                    o1: Oracles, o2: Oracles)
    requires RequestToken(header, cookies).Ok? && o1.decode == o2.decode
    requires var jwt := o1.decode(RequestToken(header, cookies).value);
      jwt.Some? && !IsAzureIssuer(Issuer(jwt.value)) && Issuer(jwt.value) != Some(INTERNAL)
    ensures Authorize(s, cfg, users, header, cookies, nowMillis, o1) ==
            Authorize(s, cfg, users, header, cookies, nowMillis, o2)
    ensures Authorize(s, cfg, users, header, cookies, nowMillis, o1).1 == s
    ensures var r := Authorize(s, cfg, users, header, cookies, nowMillis, o1).0;
      r.Err? && r.error.Refused? && r.error.failure.code == PermissionDenied
  {
  }

  /** Every failure of an Azure AD token, whatever its cause, is the same PERMISSION_DENIED refusal. */
  lemma AzureFailuresLookAlike(s: ResolverState, cfg: ResolverConfig, users: map<string, User>,
                               header: Option<string>, cookies: seq<RequestCookie>, nowMillis: int, o: Oracles)
    requires RequestToken(header, cookies).Ok?
    requires var jwt := o.decode(RequestToken(header, cookies).value); jwt.Some? && IsAzureIssuer(Issuer(jwt.value))
    requires Authorize(s, cfg, users, header, cookies, nowMillis, o).0.Err?
    ensures Authorize(s, cfg, users, header, cookies, nowMillis, o).0 == Err(Refused(AZURE_VALIDATION_FAILED))
  {
  }

  /**
   * A request passes only with a verified token. The identity attribute is
   * recorded exactly for Azure AD tokens, and is the identity their claims
   * make; an internal token passes only for an enabled user, "admin"
   * included.
   */
  lemma AcceptedRequests(s: ResolverState, cfg: ResolverConfig, users: map<string, User>,
                         header: Option<string>, cookies: seq<RequestCookie>, nowMillis: int, o: Oracles)
    requires Authorize(s, cfg, users, header, cookies, nowMillis, o).0.Ok?
    ensures RequestToken(header, cookies).Ok? && o.decode(RequestToken(header, cookies).value).Some?
    ensures var jwt := o.decode(RequestToken(header, cookies).value).value;
      var a := Authorize(s, cfg, users, header, cookies, nowMillis, o).0.value;
      && VerifyToken(s, cfg, jwt, nowMillis, o).0 == Ok(jwt)
      && a.decodedJwt == jwt
      && (a.userIdentity.Some? <==> IsAzureIssuer(Issuer(jwt)))
      && (a.userIdentity.Some? ==> FromAzureAdToken(Some(ExtractAzureAdClaims(Some(jwt)).value)) == Ok(a.userIdentity.value))
      && (!IsAzureIssuer(Issuer(jwt)) ==> Issuer(jwt) == Some(INTERNAL) && IsEnabledUser(users, Subject(jwt)))
  {
    var jwt := o.decode(RequestToken(header, cookies).value).value;
    VerifiedTokenIsSigned(s, cfg, jwt, nowMillis, o);
  }

  /** The gate has no "admin" shortcut: an internal token for a subject with no enabled user is refused. */
  lemma NoAdminShortcut(s: ResolverState, cfg: ResolverConfig, users: map<string, User>,
                        header: Option<string>, cookies: seq<RequestCookie>, nowMillis: int, o: Oracles)
    requires RequestToken(header, cookies).Ok?
    requires var jwt := o.decode(RequestToken(header, cookies).value);
      jwt.Some? && Issuer(jwt.value) == Some(INTERNAL) && Subject(jwt.value) == Some("admin") && "admin" !in users
    ensures Authorize(s, cfg, users, header, cookies, nowMillis, o).0.Err?
  {
    var jwt := o.decode(RequestToken(header, cookies).value).value;
    assert !IsAzureIssuer(Issuer(jwt)) by {
      InternalIsNotAzure();
    }
  }

  /** The internal issuer names neither Azure AD host, so the two branches never compete. */
  lemma InternalIsNotAzure()
    ensures !IsAzureIssuer(Some(INTERNAL))
  {
    NotContainsLonger(INTERNAL, AZURE_LOGIN_HOST);
    NotContainsLonger(INTERNAL, AZURE_STS_HOST);
  }

  /** A string does not contain one longer than itself. */
  lemma {:induction false} NotContainsLonger(s: string, part: string)
    requires |s| < |part|
    ensures !Contains(s, part)
    decreases |s|
  {
    if |s| > 0 {
      NotContainsLonger(s[1..], part);
    }
  }

  /** The request gate. */
  class AuthDecorator {
    const jwks: JwksOperations
    const userStore: UserStore

    ghost predicate Valid()
      reads this, jwks, jwks.cache, jwks.rateLimiters.Values
    {
      jwks.Valid()
    }

    constructor(ops: JwksOperations, store: UserStore)
      requires ops.Valid()
      ensures Valid() && jwks == ops && userStore == store
    {
      jwks := ops;
      userStore := store;
    }

    /** serve, up to the delegation: the attributes it records, or the failure it throws. */
    method Serve(header: Option<string>, cookies: seq<RequestCookie>, nowMillis: int, o: Oracles)
      returns (r: Result<RequestAttributes, AuthError>)
      requires Valid()
      modifies jwks, jwks.cache, jwks.rateLimiters.Values
      ensures Valid()
      ensures (r, jwks.State()) ==
        Authorize(old(jwks.State()), jwks.Config(), userStore.byEmail, header, cookies, nowMillis, o)
    {
      var cookie := FirstCookie(cookies, UC_TOKEN_KEY);
      var token := TokenFromRequest(header, cookie);
      if token.Err? {
        return Err(Refused(token.error));
      }
      var decoded := o.decode(token.value);
      if decoded.None? {
        return Err(MalformedToken);
      }
      r := ServeDecoded(decoded.value, nowMillis, o);
    }

    /** serve once the token is decoded: the dispatch on its issuer. */
    method ServeDecoded(jwt: DecodedJwt, nowMillis: int, o: Oracles) returns (r: Result<RequestAttributes, AuthError>)
      requires Valid()
      modifies jwks, jwks.cache, jwks.rateLimiters.Values
      ensures Valid()
      ensures (r, jwks.State()) == AuthorizeDecoded(old(jwks.State()), jwks.Config(), userStore.byEmail, jwt, nowMillis, o)
    {
      var issuer := Issuer(jwt);
      if !IsAzureIssuer(issuer) && issuer != Some(INTERNAL) {
        return Err(Refused(Failure(PermissionDenied, "Invalid or unsupported token issuer: " + JavaString(issuer))));
      }
      var verified := VerifyTokenWith(jwks, jwt, nowMillis, o);
      if IsAzureIssuer(issuer) {
        if verified.Err? {
          return Err(Refused(AZURE_VALIDATION_FAILED));
        }
        var identity := AzureIdentity(verified.value);
        if identity.None? {
          return Err(Refused(AZURE_VALIDATION_FAILED));
        }
        return Ok(RequestAttributes(verified.value, identity));
      }
      if verified.Err? {
        return Err(verified.error);
      }
      var subject := Subject(verified.value);
      var user := userStore.GetUserByEmail(subject);
      if user.None? || user.value.state != Enabled {
        return Err(Refused(Failure(PermissionDenied, "User not allowed: " + JavaString(subject))));
      }
      r := Ok(RequestAttributes(verified.value, None));
    }
  }
}
