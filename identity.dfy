/**
 * The user identity built from validated Azure AD claims (UserIdentity): the
 * field mapping with its email fallback, null-safe role and group membership,
 * and equality restricted to user id and tenant id.
 */
module Identity {
  import opened Common
  import opened AzureClaims
  import JavaHash

  datatype UserIdentity = UserIdentity(
    userId: Option<string>,
    displayName: Option<string>,
    email: Option<string>,
    tenantId: Option<string>,
    roles: Option<seq<string>>,
    groups: Option<seq<string>>)

  /** Why fromAzureAdToken throws IllegalArgumentException. */
  datatype IdentityError = NullClaims | InvalidClaims(missing: RequiredClaim)

  function IdentityErrorMessage(e: IdentityError): string
  {
    match e
    case NullClaims => "Claims cannot be null"
    case InvalidClaims(k) => MissingClaimMessage(k)
  }

  /**
   * fromAzureAdToken: null claims and claims that fail validate() are refused
   * before anything is built; otherwise the identity takes oid as user id, the
   * name, tid, the roles and groups as they are (null included), and the email
   * claim when it is non-null (even empty), else preferred_username.
   */
  function FromAzureAdToken(claims: Option<TokenClaims>): (r: Result<UserIdentity, IdentityError>)
    ensures claims.None? ==> r == Err(NullClaims)
    ensures claims.Some? && Validate(claims.value).Fail? ==> r == Err(InvalidClaims(Validate(claims.value).error))
    ensures r.Ok? <==> claims.Some? && forall k :: IsPresent(claims.value, k)
    ensures r.Ok? ==> !IsNullOrBlank(r.value.userId) && !IsNullOrBlank(r.value.tenantId)
    ensures r.Ok? ==>
      && r.value.userId == claims.value.objectId
      && r.value.tenantId == claims.value.tenantId
      && r.value.displayName == claims.value.name
      && r.value.roles == claims.value.roles
      && r.value.groups == claims.value.groups
    ensures r.Ok? && claims.value.email.Some? ==> r.value.email == claims.value.email
    ensures r.Ok? && claims.value.email.None? ==> r.value.email == claims.value.preferredUsername
  {
    if claims.None? then Err(NullClaims)
    else
      var c := claims.value;
      match Validate(c)
      case Fail(k) => Err(InvalidClaims(k))
      case Pass =>
        assert IsPresent(c, Oid) && IsPresent(c, Tid);
        Ok(UserIdentity(c.objectId, c.name, if c.email.Some? then c.email else c.preferredUsername,
                        c.tenantId, c.roles, c.groups))
  }

  /** hasRole: false for a null role list, membership otherwise. */
  predicate HasRole(u: UserIdentity, role: string)
  {
    u.roles.Some? && role in u.roles.value
  }

  /** belongsToGroup: false for a null group list, membership otherwise. */
  predicate BelongsToGroup(u: UserIdentity, group: string)
  {
    u.groups.Some? && group in u.groups.value
  }

  /** equals(): user id and tenant id only. */
  predicate IdentityEquals(a: UserIdentity, b: UserIdentity)
  {
    a.userId == b.userId && a.tenantId == b.tenantId
  }

  /** hashCode(): Objects.hash(userId, tenantId). */
  function IdentityHash(u: UserIdentity): (h: int)
    ensures JavaHash.IsInt32(h)
  {
    JavaHash.ObjectsHash([JavaHash.OptionalStringHash(u.userId), JavaHash.OptionalStringHash(u.tenantId)])
  }

  lemma EqualIdentitiesHashEqually(a: UserIdentity, b: UserIdentity)
    requires IdentityEquals(a, b)
    ensures IdentityHash(a) == IdentityHash(b)
  {
  }

  /** Equal claim records yield equal identities, or fail alike. */
  lemma EqualClaimsGiveEqualIdentities(a: TokenClaims, b: TokenClaims)
    requires ClaimsEqual(a, b)
    ensures FromAzureAdToken(Some(a)).Ok? <==> FromAzureAdToken(Some(b)).Ok?
    ensures FromAzureAdToken(Some(a)).Ok? ==>
      IdentityEquals(FromAzureAdToken(Some(a)).value, FromAzureAdToken(Some(b)).value)
  {
    EqualClaimsValidateAlike(a, b);
  }

  /** Roles and groups carry over from the claims: membership in the identity is membership in the token's lists. */
  lemma MembershipFromClaims(c: TokenClaims, role: string, group: string)
    requires FromAzureAdToken(Some(c)).Ok?
    ensures HasRole(FromAzureAdToken(Some(c)).value, role) <==> c.roles.Some? && role in c.roles.value
    ensures BelongsToGroup(FromAzureAdToken(Some(c)).value, group) <==> c.groups.Some? && group in c.groups.value
  {
  }

  /** An identity without role or group lists has no role and is in no group. */
  lemma NullListsGrantNothing(u: UserIdentity, role: string, group: string)
    requires u.roles.None? && u.groups.None?
    ensures !HasRole(u, role) && !BelongsToGroup(u, group)
  {
  }

  /** An empty email claim is kept: the fallback applies only to a null email. */
  lemma EmptyEmailIsKept(c: TokenClaims)
    requires c.email == Some("")
    requires forall k :: IsPresent(c, k)
    ensures FromAzureAdToken(Some(c)) ==
      Ok(UserIdentity(c.objectId, c.name, Some(""), c.tenantId, c.roles, c.groups))
  {
  }
}
