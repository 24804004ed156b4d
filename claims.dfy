/**
 * The decoded Azure AD token claims (AzureAdTokenClaims): a record of twelve
 * nullable fields with setters, the required-claim validation, the expiry and
 * not-before tests of RFC 7519 sections 4.1.4 and 4.1.5, and equality and hash
 * restricted to the identifying fields.
 *
 * The record's value is the datatype TokenClaims; the mutable Java bean is the
 * class AzureAdTokenClaims, whose state is read as a TokenClaims by Snapshot().
 * Times are epoch seconds; the clock is a parameter.
 */
module AzureClaims {
  import opened Common
  import JavaHash

  datatype TokenClaims = TokenClaims(
    issuer: Option<string>,
    audience: Option<string>,
    expiration: Option<int>,
    issuedAt: Option<int>,
    notBefore: Option<int>,
    objectId: Option<string>,
    tenantId: Option<string>,
    name: Option<string>,
    email: Option<string>,
    preferredUsername: Option<string>,
    roles: Option<seq<string>>,
    groups: Option<seq<string>>)

  /** The state of a freshly constructed AzureAdTokenClaims: every field null. */
  const NoClaims: TokenClaims := TokenClaims(None, None, None, None, None, None, None, None, None, None, None, None)

  // ---------------------------------------------------------------------
  // validate()
  // ---------------------------------------------------------------------

  /** The claims validate() insists on, in the order it tests them. */
  datatype RequiredClaim = Iss | Aud | Exp | Oid | Tid

  function Rank(k: RequiredClaim): nat
  {
    match k
    case Iss => 0
    case Aud => 1
    case Exp => 2
    case Oid => 3
    case Tid => 4
  }

  /** A string claim counts as present when it is neither null nor blank; `exp` only has to be non-null. */
  predicate IsPresent(c: TokenClaims, k: RequiredClaim)
  {
    match k
    case Iss => !IsNullOrBlank(c.issuer)
    case Aud => !IsNullOrBlank(c.audience)
    case Exp => c.expiration.Some?
    case Oid => !IsNullOrBlank(c.objectId)
    case Tid => !IsNullOrBlank(c.tenantId)
  }

  /** The message of the IllegalArgumentException validate() throws for a missing claim. */
  function MissingClaimMessage(k: RequiredClaim): string
  {
    match k
    case Iss => "Missing required claim: iss (issuer)"
    case Aud => "Missing required claim: aud (audience)"
    case Exp => "Missing required claim: exp (expiration)"
    case Oid => "Missing required claim: oid (object ID)"
    case Tid => "Missing required claim: tid (tenant ID)"
  }

  /**
   * validate(): passes exactly when all five required claims are present;
   * otherwise it fails on the first missing one, every claim tested before it
   * being present.
   */
  function Validate(c: TokenClaims): (r: Outcome<RequiredClaim>)
    ensures r.Pass? <==> forall k :: IsPresent(c, k)
    ensures r.Fail? ==> !IsPresent(c, r.error)
    ensures r.Fail? ==> forall k :: Rank(k) < Rank(r.error) ==> IsPresent(c, k)
  {
    if !IsPresent(c, Iss) then Fail(Iss)
    else if !IsPresent(c, Aud) then Fail(Aud)
    else if !IsPresent(c, Exp) then Fail(Exp)
    else if !IsPresent(c, Oid) then Fail(Oid)
    else if !IsPresent(c, Tid) then Fail(Tid)
    else Pass
  }

  /** Name, email, username, roles, groups, iat and nbf are not required: they never affect validate(). */
  lemma ValidateIgnoresOptionalClaims(c: TokenClaims, name: Option<string>, email: Option<string>,
                                      preferredUsername: Option<string>, roles: Option<seq<string>>,
                                      groups: Option<seq<string>>, issuedAt: Option<int>, notBefore: Option<int>)
    ensures Validate(c) == Validate(c.(name := name, email := email, preferredUsername := preferredUsername,
                                       roles := roles, groups := groups, issuedAt := issuedAt,
                                       notBefore := notBefore))
  {
  }

  /** A freshly constructed record fails on the issuer. */
  lemma NoClaimsFailOnIssuer()
    ensures Validate(NoClaims) == Fail(Iss)
  {
  }

  // ---------------------------------------------------------------------
  // isExpired(), isNotYetValid()
  // ---------------------------------------------------------------------

  /** isExpired(): a record without `exp` is expired; otherwise it is from the second `exp` on. */
  predicate IsExpired(c: TokenClaims, nowSeconds: int)
  {
    c.expiration.None? || nowSeconds >= c.expiration.value
  }

  /** isNotYetValid(): a record without `nbf` is valid at once; otherwise it is before the second `nbf`. */
  predicate IsNotYetValid(c: TokenClaims, nowSeconds: int)
  {
    c.notBefore.Some? && nowSeconds < c.notBefore.value
  }

  /** Once expired, always expired. */
  lemma ExpiryIsPermanent(c: TokenClaims, t1: int, t2: int)
    requires t1 <= t2 && IsExpired(c, t1)
    ensures IsExpired(c, t2)
  {
  }

  /** Once valid, never again not-yet-valid. */
  lemma NotBeforeIsPassedForGood(c: TokenClaims, t1: int, t2: int)
    requires t1 <= t2 && !IsNotYetValid(c, t1)
    ensures !IsNotYetValid(c, t2)
  {
  }

  /** A record is usable at `now` exactly when `nbf <= now < exp` (a missing `nbf` imposing nothing). */
  lemma UsableWindow(c: TokenClaims, nowSeconds: int)
    ensures !IsExpired(c, nowSeconds) && !IsNotYetValid(c, nowSeconds) <==>
      c.expiration.Some? && nowSeconds < c.expiration.value &&
      (c.notBefore.None? || c.notBefore.value <= nowSeconds)
  {
  }

  // ---------------------------------------------------------------------
  // equals(), hashCode()
  // ---------------------------------------------------------------------

  /** equals(): issuer, audience, expiration, object id and tenant id, compared null-safely. */
  predicate ClaimsEqual(a: TokenClaims, b: TokenClaims)
  {
    && a.issuer == b.issuer
    && a.audience == b.audience
    && a.expiration == b.expiration
    && a.objectId == b.objectId
    && a.tenantId == b.tenantId
  }

  /** hashCode(): Objects.hash of the same five fields. */
  function HashCode(c: TokenClaims): (h: int)
    ensures JavaHash.IsInt32(h)
  {
    JavaHash.ObjectsHash([JavaHash.OptionalStringHash(c.issuer), JavaHash.OptionalStringHash(c.audience),
                          JavaHash.OptionalLongHash(c.expiration), JavaHash.OptionalStringHash(c.objectId),
                          JavaHash.OptionalStringHash(c.tenantId)])
  }

  /** Equal records have equal hash codes, so the pair honours the Object contract. */
  lemma EqualClaimsHashEqually(a: TokenClaims, b: TokenClaims)
    requires ClaimsEqual(a, b)
    ensures HashCode(a) == HashCode(b)
  {
  }

  /** Equality ignores every claim outside the five identifying ones. */
  lemma ClaimsEqualIgnoresOtherFields(c: TokenClaims, d: TokenClaims)
    ensures ClaimsEqual(c, c.(issuedAt := d.issuedAt, notBefore := d.notBefore, name := d.name, email := d.email,
                              preferredUsername := d.preferredUsername, roles := d.roles, groups := d.groups))
  {
  }

  /** Two records that agree on the identifying claims validate alike. */
  lemma EqualClaimsValidateAlike(a: TokenClaims, b: TokenClaims)
    requires ClaimsEqual(a, b)
    ensures Validate(a) == Validate(b)
  {
  }

  // ---------------------------------------------------------------------
  // The mutable bean
  // ---------------------------------------------------------------------

  /** AzureAdTokenClaims as a mutable bean. Each setter changes its own field and nothing else. */
  class AzureAdTokenClaims {
    var issuer: Option<string>
    var audience: Option<string>
    var expiration: Option<int>
    var issuedAt: Option<int>
    var notBefore: Option<int>
    var objectId: Option<string>
    var tenantId: Option<string>
    var name: Option<string>
    var email: Option<string>
    var preferredUsername: Option<string>
    var roles: Option<seq<string>>
    var groups: Option<seq<string>>

    /** What the getters return, as one value. */
    function Snapshot(): TokenClaims
      reads this
    {
      TokenClaims(issuer, audience, expiration, issuedAt, notBefore, objectId, tenantId, name, email,
                  preferredUsername, roles, groups)
    }

    constructor()
      ensures Snapshot() == NoClaims
    {
      issuer, audience, expiration, issuedAt, notBefore := None, None, None, None, None;
      objectId, tenantId, name, email, preferredUsername := None, None, None, None, None;
      roles, groups := None, None;
    }

    method SetIssuer(v: Option<string>)
      modifies this
      ensures Snapshot() == old(Snapshot()).(issuer := v)
    {
      issuer := v;
    }

    method SetAudience(v: Option<string>)
      modifies this
      ensures Snapshot() == old(Snapshot()).(audience := v)
    {
      audience := v;
    }

    method SetExpiration(v: Option<int>)
      modifies this
      ensures Snapshot() == old(Snapshot()).(expiration := v)
    {
      expiration := v;
    }

    method SetIssuedAt(v: Option<int>)
      modifies this
      ensures Snapshot() == old(Snapshot()).(issuedAt := v)
    {
      issuedAt := v;
    }

    method SetNotBefore(v: Option<int>)
      modifies this
      ensures Snapshot() == old(Snapshot()).(notBefore := v)
    {
      notBefore := v;
    }

    method SetObjectId(v: Option<string>)
      modifies this
      ensures Snapshot() == old(Snapshot()).(objectId := v)
    {
      objectId := v;
    }

    method SetTenantId(v: Option<string>)
      modifies this
      ensures Snapshot() == old(Snapshot()).(tenantId := v)
    {
      tenantId := v;
    }

    method SetName(v: Option<string>)
      modifies this
      ensures Snapshot() == old(Snapshot()).(name := v)
    {
      name := v;
    }

    method SetEmail(v: Option<string>)
      modifies this
      ensures Snapshot() == old(Snapshot()).(email := v)
    {
      email := v;
    }

    method SetPreferredUsername(v: Option<string>)
      modifies this
      ensures Snapshot() == old(Snapshot()).(preferredUsername := v)
    {
      preferredUsername := v;
    }

    method SetRoles(v: Option<seq<string>>)
      modifies this
      ensures Snapshot() == old(Snapshot()).(roles := v)
    {
      roles := v;
    }

    method SetGroups(v: Option<seq<string>>)
      modifies this
      ensures Snapshot() == old(Snapshot()).(groups := v)
    {
      groups := v;
    }
  }
}
