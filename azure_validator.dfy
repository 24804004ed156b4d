/**
 * The tenant-bound Azure AD token validator used for bootstrap: a token is
 * accepted when it names the tenant's v2.0 issuer exactly, is signed with
 * RS256 by a key from the tenant's JWKS document, carries the `oid` and
 * `name` claims and has not expired more than 60 seconds ago.
 *
 * The JWKS provider of the library (with its own cache and rate limit) is
 * a key-lookup function supplied by the caller.
 */
module AzureJwt {
  import opened Common
  import opened Jose
  import opened KeyResolution
  import opened ServerHttp
  import opened TokenService

  /** The clock skew accepted past `exp`, in seconds. */
  const EXPIRY_LEEWAY_SECONDS: nat := 60

  /** The claims every accepted token carries: the Azure object id and the display name. */
  const REQUIRED_CLAIMS: seq<string> := ["oid", "name"]

  /** The v2.0 issuer of a tenant. */
  function ExpectedIssuer(tenant: string): string
  {
    AZURE_LOGIN_PREFIX + tenant + "/v2.0"
  }

  /** The JWKS document of a tenant. */
  function JwksUrl(tenant: string): string
  {
    AZURE_LOGIN_PREFIX + tenant + "/discovery/v2.0/keys"
  }

  /** The fixed part of every failure of validateAzureJwt that is not an issuer mismatch. */
  const INVALID_AZURE_JWT: Failure := Failure(Unauthenticated, "Invalid Azure JWT")

  /** The tenant's key set, as the library's JwkProvider.get serves it: the key of a `kid`, or why there is none. */
  type KeyLookup = Option<string> -> Result<Jwk, string>

  /** The validator as its constructor leaves it: the tenant, and the issuer and key-set address derived from it. */
  datatype AzureJwtOperations = AzureJwtOperations(expectedTenant: string, expectedIssuer: string, jwksUrl: string)

  /** The configuration of a tenant. */
  function ForTenant(tenant: string): (ops: AzureJwtOperations)
    ensures ops.expectedTenant == tenant
    ensures ops.expectedIssuer == ExpectedIssuer(tenant) && ops.jwksUrl == JwksUrl(tenant)
    ensures StartsWith(ops.expectedIssuer, AZURE_LOGIN_PREFIX) && EndsWith(ops.expectedIssuer, "/v2.0")
    ensures StartsWith(ops.jwksUrl, AZURE_LOGIN_PREFIX) && EndsWith(ops.jwksUrl, "/discovery/v2.0/keys")
  {
    var ops := AzureJwtOperations(tenant, ExpectedIssuer(tenant), JwksUrl(tenant));
    assert ops.expectedIssuer[..|AZURE_LOGIN_PREFIX|] == AZURE_LOGIN_PREFIX;
    assert ops.jwksUrl[..|AZURE_LOGIN_PREFIX|] == AZURE_LOGIN_PREFIX;
    ops
  }

  /** The verifier validateAzureJwt builds for a key. */
  function AzureVerifier(ops: AzureJwtOperations, key: Jwk): Verifier
  {
    Verifier(RS256, key, Some(ops.expectedIssuer), REQUIRED_CLAIMS, EXPIRY_LEEWAY_SECONDS)
  }

  /** validateAzureJwt once the token is decoded: issuer, then key, then the library's verification. */
  function CheckDecoded(ops: AzureJwtOperations, jwt: DecodedJwt, keys: KeyLookup, signatureValid: SignatureCheck,
                        nowSeconds: int): (r: Result<DecodedJwt, Failure>)
    ensures r.Err? ==> r.error.code == Unauthenticated
    ensures r.Ok? ==> r.value == jwt
  {
    if Issuer(jwt) != Some(ops.expectedIssuer) then
      Err(Failure(Unauthenticated, "Invalid issuer. Expected: " + ops.expectedIssuer + ", Actual: " + JavaString(Issuer(jwt))))
    else
      match keys(jwt.keyId)
      case Err(_) => Err(INVALID_AZURE_JWT)
      case Ok(key) =>
        if !IsRsaKey(key) then Err(INVALID_AZURE_JWT)
        else
          match Verify(AzureVerifier(ops, key), jwt, signatureValid, nowSeconds)
          case Err(_) => Err(INVALID_AZURE_JWT)
          case Ok(verified) => Ok(verified)
  }

  /** validateAzureJwt: a null token and a token that does not decode fail like any library error. */
  function ValidateAzureJwt(ops: AzureJwtOperations, token: Option<string>, decode: Decoder, keys: KeyLookup,
                            signatureValid: SignatureCheck, nowSeconds: int): (r: Result<DecodedJwt, Failure>)
    ensures r.Err? ==> r.error.code == Unauthenticated
    ensures DecodeToken(decode, token).None? ==> r == Err(INVALID_AZURE_JWT)
    ensures r.Ok? ==> Some(r.value) == DecodeToken(decode, token)
  {
    match DecodeToken(decode, token)
    case None => Err(INVALID_AZURE_JWT)
    case Some(jwt) => CheckDecoded(ops, jwt, keys, signatureValid, nowSeconds)
  }

  /**
   * What an accepted token is: exactly one naming the tenant's issuer whose
   * key is an RSA key, signed with RS256 under it, carrying `oid` and `name`,
   * expired less than the leeway ago, past its `nbf` and not issued in the
   * future.
   */
  lemma AcceptedIff(ops: AzureJwtOperations, jwt: DecodedJwt, keys: KeyLookup, signatureValid: SignatureCheck,
                    nowSeconds: int)
    ensures CheckDecoded(ops, jwt, keys, signatureValid, nowSeconds).Ok? <==>
      && Issuer(jwt) == Some(ops.expectedIssuer)
      && keys(jwt.keyId).Ok? && IsRsaKey(keys(jwt.keyId).value)
      && jwt.algorithm == Some("RS256")
      && signatureValid(RS256, keys(jwt.keyId).value, jwt.token)
      && HasClaim(jwt, "oid") && HasClaim(jwt, "name")
      && (NumericDate(jwt, "exp").None? || nowSeconds < NumericDate(jwt, "exp").value + 60)
      && !NotYetValidAt(jwt, nowSeconds)
      && !IssuedInFutureAt(jwt, nowSeconds)
  {
    if Issuer(jwt) == Some(ops.expectedIssuer) && keys(jwt.keyId).Ok? && IsRsaKey(keys(jwt.keyId).value) {
      var v := AzureVerifier(ops, keys(jwt.keyId).value);
      assert (forall i :: 0 <= i < |v.requiredClaims| ==> HasClaim(jwt, v.requiredClaims[i]))
        <==> HasClaim(jwt, "oid") && HasClaim(jwt, "name") by {
        assert v.requiredClaims[0] == "oid" && v.requiredClaims[1] == "name";
      }
    }
  }

  /**
   * The issuer is checked before any key is looked up: a token naming
   * another issuer is refused the same way whatever the key set and the
   * signature would say.
   */
  lemma IssuerCheckedBeforeKeyLookup(ops: AzureJwtOperations, jwt: DecodedJwt, keys1: KeyLookup, keys2: KeyLookup,
                                     sig1: SignatureCheck, sig2: SignatureCheck, nowSeconds: int)
    requires Issuer(jwt) != Some(ops.expectedIssuer)
    ensures CheckDecoded(ops, jwt, keys1, sig1, nowSeconds) == CheckDecoded(ops, jwt, keys2, sig2, nowSeconds)
    ensures CheckDecoded(ops, jwt, keys1, sig1, nowSeconds).Err? &&
            CheckDecoded(ops, jwt, keys1, sig1, nowSeconds) != Err(INVALID_AZURE_JWT)
  {
    var r := CheckDecoded(ops, jwt, keys1, sig1, nowSeconds);
    var prefix := "Invalid issuer. Expected: ";
    assert r.error.message[..|prefix|] == prefix;
    assert r.error.message[8] == 'i';
  }

  /** A token whose `exp` lies the leeway or more in the past is refused, whatever else holds. */
  lemma ExpiredBeyondLeewayRefused(ops: AzureJwtOperations, jwt: DecodedJwt, keys: KeyLookup, signatureValid: SignatureCheck,
                                   nowSeconds: int)
    requires NumericDate(jwt, "exp").Some? && nowSeconds >= NumericDate(jwt, "exp").value + EXPIRY_LEEWAY_SECONDS
    ensures CheckDecoded(ops, jwt, keys, signatureValid, nowSeconds).Err?
  {
    AcceptedIff(ops, jwt, keys, signatureValid, nowSeconds);
  }

  /**
   * The validator never reads the `tid` claim: changing it changes nothing
   * about whether a token is accepted. A caller that needs the tenant must
   * ask IsTokenFromExpectedTenant as well.
   */
  lemma TenantClaimNotChecked(ops: AzureJwtOperations, jwt: DecodedJwt, tid: ClaimValue, keys: KeyLookup,
                              signatureValid: SignatureCheck, nowSeconds: int)
    ensures var other := jwt.(claims := jwt.claims["tid" := tid]);
      CheckDecoded(ops, other, keys, signatureValid, nowSeconds).Ok? <==>
      CheckDecoded(ops, jwt, keys, signatureValid, nowSeconds).Ok?
  {
    var other := jwt.(claims := jwt.claims["tid" := tid]);
    AcceptedIff(ops, jwt, keys, signatureValid, nowSeconds);
    AcceptedIff(ops, other, keys, signatureValid, nowSeconds);
    assert Claim(other, "iss") == Claim(jwt, "iss");
    assert Claim(other, "exp") == Claim(jwt, "exp");
    assert Claim(other, "nbf") == Claim(jwt, "nbf");
    assert HasClaim(other, "oid") == HasClaim(jwt, "oid");
    assert HasClaim(other, "name") == HasClaim(jwt, "name");
  }

  /** isTokenFromExpectedTenant: the token's `tid` claim is a string equal to the tenant. */
  predicate IsTokenFromExpectedTenant(ops: AzureJwtOperations, jwt: DecodedJwt)
  {
    AsString(Claim(jwt, "tid")) == Some(ops.expectedTenant)
  }

  /** A token from the expected tenant carries exactly the tenant as its `tid` string claim. */
  lemma TenantCheckIff(ops: AzureJwtOperations, jwt: DecodedJwt)
    ensures IsTokenFromExpectedTenant(ops, jwt) <==>
      "tid" in jwt.claims && jwt.claims["tid"] == StringClaim(ops.expectedTenant)
  {
  }

  /** Different tenants have different issuers, so a token for one tenant is refused by another's validator. */
  lemma {:induction false} ExpectedIssuerInjective(t1: string, t2: string)
    requires ExpectedIssuer(t1) == ExpectedIssuer(t2)
    ensures t1 == t2
  {
    var s := ExpectedIssuer(t1);
    var n := |AZURE_LOGIN_PREFIX|;
    assert |t1| == |t2|;
    assert s[n..n + |t1|] == t1;
    assert ExpectedIssuer(t2)[n..n + |t2|] == t2;
  }

  /** A tenant's issuer is one the token exchange accepts as an Azure AD issuer. */
  lemma ExpectedIssuerIsAzure(tenant: string)
    ensures ValidateIssuer(Some(ExpectedIssuer(tenant)))
    ensures IsAzureIssuer(Some(ExpectedIssuer(tenant)))
  {
    var s := ExpectedIssuer(tenant);
    assert s[..|AZURE_LOGIN_PREFIX|] == AZURE_LOGIN_PREFIX;
    assert s[0] == 'h';
    BlankIffAllTrimmed(s);
    ValidIssuerIsAzure(Some(s));
  }
}
