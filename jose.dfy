/**
 * The values the authentication core receives from the JWT/JWK library: a
 * decoded token with its header fields and payload claims, a JSON Web Key,
 * the three RSA signature algorithms, and the verifier that checks a token
 * against a key.
 *
 * The library itself is not modelled: decoding a raw token and checking an
 * RSA signature are supplied by the caller as functions (oracles). What the
 * verifier checks besides the signature (the algorithm named in the header,
 * the issuer, the presence of claims, expiry with a leeway, not-before and
 * issued-at) is written out, because the core relies on it. The checks are
 * those of java-jwt 4.x, whose `withClaimPresence` the core uses.
 */
module Jose {
  import opened Common

  /** A claim as the library exposes it (a JSON value). A missing claim reads as NullClaim. */
  datatype ClaimValue =
    | StringClaim(text: string)
    | NumberClaim(number: int)
    | ListClaim(items: seq<ClaimValue>)
    | NullClaim
    | OtherClaim

  /** Claim.asString(): the text of a string claim, null for any other kind of claim. */
  function AsString(c: ClaimValue): Option<string>
  {
    if c.StringClaim? then Some(c.text) else None
  }

  /** The texts of a list of claims, or null as soon as one item is not a string. */
  function StringItems(items: seq<ClaimValue>): (r: Option<seq<string>>)
    ensures r.Some? <==> forall i :: 0 <= i < |items| ==> items[i].StringClaim?
    ensures r.Some? ==> |r.value| == |items| && forall i :: 0 <= i < |items| ==> r.value[i] == items[i].text
  {
    if items == [] then Some([])
    else if !items[0].StringClaim? then None
    else
      var rest := StringItems(items[1..]);
      assert forall i :: 1 <= i < |items| ==> items[i] == items[1..][i - 1];
      if rest.None? then None else Some([items[0].text] + rest.value)
  }

  /**
   * Claim.asList(String.class) as the source's getClaimListSafely sees it: a
   * list of strings for an array of strings, null for anything else (a
   * non-array claim, or an array whose items do not convert).
   */
  function AsStringList(c: ClaimValue): Option<seq<string>>
  {
    if c.ListClaim? then StringItems(c.items) else None
  }

  /** A decoded (not yet verified) token: the raw text, the header's `alg` and `kid`, the payload claims. */
  datatype DecodedJwt = DecodedJwt(token: string, algorithm: Option<string>, keyId: Option<string>,
                                   claims: map<string, ClaimValue>)

  /** DecodedJWT.getClaim(name): never null; a missing claim is the null claim. */
  function Claim(jwt: DecodedJwt, name: string): ClaimValue
  {
    if name in jwt.claims then jwt.claims[name] else NullClaim
  }

  /** A claim is present when the payload has it, whatever its value. */
  predicate HasClaim(jwt: DecodedJwt, name: string)
  {
    name in jwt.claims
  }

  function Issuer(jwt: DecodedJwt): Option<string>
  {
    AsString(Claim(jwt, "iss"))
  }

  function Subject(jwt: DecodedJwt): Option<string>
  {
    AsString(Claim(jwt, "sub"))
  }

  /** getAudience(): a single string audience reads as a one-element list. */
  function Audience(jwt: DecodedJwt): Option<seq<string>>
  {
    match Claim(jwt, "aud")
    case StringClaim(a) => Some([a])
    case ListClaim(_) => AsStringList(Claim(jwt, "aud"))
    case _ => None
  }

  /** getExpiresAt(), getIssuedAt(), getNotBefore(): a NumericDate claim in seconds as a java.util.Date in milliseconds. */
  function DateMillis(jwt: DecodedJwt, name: string): Option<int>
  {
    match Claim(jwt, name)
    case NumberClaim(n) => Some(n * 1000)
    case _ => None
  }

  /** The NumericDate of a claim in seconds, as the verifier reads it. */
  function NumericDate(jwt: DecodedJwt, name: string): Option<int>
  {
    match Claim(jwt, name)
    case NumberClaim(n) => Some(n)
    case _ => None
  }

  /** A JSON Web Key: its `kid`, its `alg` (may be absent), the algorithm of its public key ("RSA", "EC", ...). */
  datatype Jwk = Jwk(keyId: Option<string>, algorithm: Option<string>, publicKeyAlgorithm: string,
                     keyMaterial: string)

  /** The signature algorithms the core can build a verifier for. */
  datatype RsaAlgorithm = RS256 | RS384 | RS512

  function AlgorithmName(a: RsaAlgorithm): (name: string)
    ensures StartsWith(name, "RS") && |name| == 5
  {
    match a
    case RS256 => "RS256"
    case RS384 => "RS384"
    case RS512 => "RS512"
  }

  lemma AlgorithmNameInjective(a: RsaAlgorithm, b: RsaAlgorithm)
    requires AlgorithmName(a) == AlgorithmName(b)
    ensures a == b
  {
    assert AlgorithmName(a)[2] == AlgorithmName(b)[2];
  }

  /**
   * A verifier as built by `JWT.require(algorithm)`: the algorithm and key, the
   * issuer given to `withIssuer` (None: `withIssuer(null)`, which only an
   * `iss` that is present with the JSON value null matches), the claims that must be present, and the leeway in seconds
   * allowed past `exp`. `iat` and `nbf` are checked with no leeway, since the
   * core never calls `ignoreIssuedAt` or `acceptLeeway`.
   */
  datatype Verifier = Verifier(algorithm: RsaAlgorithm, key: Jwk, issuer: Option<string>,
                               requiredClaims: seq<string>, expiresAtLeeway: nat)

  /** The RSA signature check of the library: does `token` carry a valid signature by `key` under `algorithm`? */
  type SignatureCheck = (RsaAlgorithm, Jwk, string) -> bool

  datatype VerificationError =
    | AlgorithmMismatch
    | SignatureInvalid
    | IncorrectIssuer
    | MissingClaim(name: string)
    | TokenExpired
    | TokenNotYetValid
    | TokenIssuedInFuture

  /** The first claim of `names` the token lacks, if any. */
  function FirstMissing(jwt: DecodedJwt, names: seq<string>): (r: Option<string>)
    ensures r.None? <==> forall i :: 0 <= i < |names| ==> HasClaim(jwt, names[i])
    ensures r.Some? ==> r.value in names && !HasClaim(jwt, r.value)
  {
    if names == [] then None
    else if !HasClaim(jwt, names[0]) then Some(names[0])
    else
      var rest := FirstMissing(jwt, names[1..]);
      assert forall i :: 1 <= i < |names| ==> names[i] == names[1..][i - 1];
      rest
  }

  /** `exp` is accepted only while `now - leeway` is before it. */
  predicate ExpiredAt(jwt: DecodedJwt, leeway: nat, nowSeconds: int)
  {
    NumericDate(jwt, "exp").Some? && nowSeconds >= NumericDate(jwt, "exp").value + leeway
  }

  predicate NotYetValidAt(jwt: DecodedJwt, nowSeconds: int)
  {
    NumericDate(jwt, "nbf").Some? && nowSeconds < NumericDate(jwt, "nbf").value
  }

  /**
   * The `withIssuer` check once `iss` is present: a string equal to the
   * expected issuer, or, for an expected null, the JSON null itself.
   */
  predicate IssuerMatches(expected: Option<string>, jwt: DecodedJwt)
  {
    if expected.Some? then Issuer(jwt) == expected else HasClaim(jwt, "iss") && jwt.claims["iss"] == NullClaim
  }

  /** A token issued after `now` ("The Token can't be used before ..."). */
  predicate IssuedInFutureAt(jwt: DecodedJwt, nowSeconds: int)
  {
    NumericDate(jwt, "iat").Some? && nowSeconds < NumericDate(jwt, "iat").value
  }

  /**
   * JWTVerifier.verify: the header algorithm must name the verifier's
   * algorithm, the signature must check, then the claims are checked. On
   * success the verified token is the decoded token itself.
   */
  function Verify(v: Verifier, jwt: DecodedJwt, signatureValid: SignatureCheck, nowSeconds: int)
    : (r: Result<DecodedJwt, VerificationError>)
    ensures r.Ok? ==> r.value == jwt
    ensures r.Ok? <==>
      && jwt.algorithm == Some(AlgorithmName(v.algorithm))
      && signatureValid(v.algorithm, v.key, jwt.token)
      && IssuerMatches(v.issuer, jwt)
      && (forall i :: 0 <= i < |v.requiredClaims| ==> HasClaim(jwt, v.requiredClaims[i]))
      && !ExpiredAt(jwt, v.expiresAtLeeway, nowSeconds)
      && !NotYetValidAt(jwt, nowSeconds)
      && !IssuedInFutureAt(jwt, nowSeconds)
  {
    if jwt.algorithm != Some(AlgorithmName(v.algorithm)) then Err(AlgorithmMismatch)
    else if !signatureValid(v.algorithm, v.key, jwt.token) then Err(SignatureInvalid)
    else if !HasClaim(jwt, "iss") then Err(MissingClaim("iss"))
    else if !IssuerMatches(v.issuer, jwt) then Err(IncorrectIssuer)
    else if FirstMissing(jwt, v.requiredClaims).Some? then Err(MissingClaim(FirstMissing(jwt, v.requiredClaims).value))
    else if ExpiredAt(jwt, v.expiresAtLeeway, nowSeconds) then Err(TokenExpired)
    else if NotYetValidAt(jwt, nowSeconds) then Err(TokenNotYetValid)
    else if IssuedInFutureAt(jwt, nowSeconds) then Err(TokenIssuedInFuture)
    else Ok(jwt)
  }

  /** A token whose `iat` lies in the future is refused, whatever else holds. */
  lemma IssuedInFutureRefused(v: Verifier, jwt: DecodedJwt, signatureValid: SignatureCheck, nowSeconds: int)
    requires IssuedInFutureAt(jwt, nowSeconds)
    ensures Verify(v, jwt, signatureValid, nowSeconds).Err?
  {
  }

  /** The expiry instant itself, shifted by the leeway, is already too late. */
  lemma ExpiryBoundaryRefused(v: Verifier, jwt: DecodedJwt, signatureValid: SignatureCheck)
    requires NumericDate(jwt, "exp").Some?
    ensures !Verify(v, jwt, signatureValid, NumericDate(jwt, "exp").value + v.expiresAtLeeway).Ok?
  {
  }

  /**
   * A verifier built with no issuer accepts a token, all other checks
   * passing, exactly when its `iss` is present and JSON null; a token
   * without `iss` is missing the claim, one with a string `iss` is refused.
   */
  lemma NullIssuerAcceptsOnlyNullClaim(v: Verifier, jwt: DecodedJwt, signatureValid: SignatureCheck, nowSeconds: int)
    requires v.issuer.None?
    ensures Verify(v, jwt, signatureValid, nowSeconds).Ok? ==> "iss" in jwt.claims && jwt.claims["iss"] == NullClaim
    ensures Verify(v, jwt, signatureValid, nowSeconds).Ok? ==> Issuer(jwt).None?
    ensures !HasClaim(jwt, "iss") && jwt.algorithm == Some(AlgorithmName(v.algorithm)) &&
            signatureValid(v.algorithm, v.key, jwt.token) ==>
            Verify(v, jwt, signatureValid, nowSeconds) == Err(MissingClaim("iss"))
    ensures "iss" in jwt.claims && jwt.claims["iss"].StringClaim? ==> Verify(v, jwt, signatureValid, nowSeconds).Err?
    ensures jwt.algorithm == Some(AlgorithmName(v.algorithm)) && signatureValid(v.algorithm, v.key, jwt.token) &&
            (forall i :: 0 <= i < |v.requiredClaims| ==> HasClaim(jwt, v.requiredClaims[i])) &&
            !ExpiredAt(jwt, v.expiresAtLeeway, nowSeconds) && !NotYetValidAt(jwt, nowSeconds) &&
            !IssuedInFutureAt(jwt, nowSeconds) ==>
            (Verify(v, jwt, signatureValid, nowSeconds).Ok? <==> "iss" in jwt.claims && jwt.claims["iss"] == NullClaim)
  {
  }

  /** A larger expiry leeway never rejects a token that a smaller one accepts. */
  lemma LeewayMonotone(v: Verifier, jwt: DecodedJwt, signatureValid: SignatureCheck, nowSeconds: int, more: nat)
    requires v.expiresAtLeeway <= more
    requires Verify(v, jwt, signatureValid, nowSeconds).Ok?
    ensures Verify(v.(expiresAtLeeway := more), jwt, signatureValid, nowSeconds).Ok?
  {
  }
}
