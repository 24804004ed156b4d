/**
 * Admin bootstrap by email allowlist: a user whose address is on the
 * configured allowlist (an exact address, or an "@domain" entry) is granted
 * OWNER on the metastore. The decision is AdminAllowlistValidator's; the
 * grant is recorded by the authorizer, modelled as the set of grants it
 * holds. Failures while granting are swallowed: the user is then simply
 * not granted.
 *
 * The grant names the user by `UUID.fromString(user.getId())`. That parse is
 * a parameter: it gives the UUID an id denotes, or None where the library
 * throws.
 */
module Bootstrap {
  import opened Common
  import opened AdminAllowlist
  import opened Users

  datatype Privilege = Owner

  /** UUID.fromString: the UUID (in its text form) an id denotes, or None when it is not one. */
  type UuidParse = string -> Option<string>

  /** One authorization: a principal holds a privilege on a resource. */
  datatype Grant = Grant(principal: string, resource: string, privilege: Privilege)

  /**
   * Whether the user is bootstrapped: neither list empty at once, an address
   * that is not blank, and the validator's match.
   */
  predicate ShouldGrant(user: User, allowedEmails: seq<string>, allowedDomains: seq<string>)
  {
    && !(allowedEmails == [] && allowedDomains == [])
    && !IsNullOrBlank(user.email)
    && IsEmailInAllowlist(user.email, Some(allowedEmails), Some(allowedDomains))
  }

  /**
   * The grants checkAdminAllowlistAndGrant adds: OWNER on the metastore for a
   * bootstrapped user, nothing when the metastore id cannot be read (None) or
   * the user id is not a UUID.
   */
  function GrantsFor(user: User, allowedEmails: seq<string>, allowedDomains: seq<string>, metastoreId: Option<string>,
                     uuid: UuidParse): (r: set<Grant>)
    ensures r == {} || (metastoreId.Some? && uuid(user.id).Some? && r == {Grant(uuid(user.id).value, metastoreId.value, Owner)})
    ensures uuid(user.id).None? ==> r == {}
  {
    if ShouldGrant(user, allowedEmails, allowedDomains) && metastoreId.Some? && uuid(user.id).Some? then
      {Grant(uuid(user.id).value, metastoreId.value, Owner)}
    else {}
  }

  /**
   * The early returns for an empty allowlist and a blank address decide
   * nothing the validator would not: a user is granted exactly when the
   * validator matches the address (and the user id parses as a UUID).
   */
  lemma {:induction false} GrantedIffAllowlisted(user: User, allowedEmails: seq<string>, allowedDomains: seq<string>,
                                                  metastoreId: string, uuid: UuidParse)
    ensures GrantsFor(user, allowedEmails, allowedDomains, Some(metastoreId), uuid) != {} <==>
            IsEmailInAllowlist(user.email, Some(allowedEmails), Some(allowedDomains)) && uuid(user.id).Some?
  {
    if allowedEmails == [] && allowedDomains == [] {
      EmptyAllowlistMatchesNothing(user.email, Some(allowedEmails), Some(allowedDomains));
    }
  }

  /** The authorizer's store of grants. */
  class Authorizer {
    var grants: set<Grant>

    constructor()
      ensures grants == {}
    {
      grants := {};
    }

    /** checkAdminAllowlistAndGrant of the bootstrap test: grant OWNER on the metastore to an allowlisted user. */
    method CheckAdminAllowlistAndGrant(user: User, allowedEmails: seq<string>, allowedDomains: seq<string>,
                                       metastoreId: Option<string>, uuid: UuidParse)
      modifies this
      ensures grants == old(grants) + GrantsFor(user, allowedEmails, allowedDomains, metastoreId, uuid)
      ensures metastoreId.Some? && uuid(user.id).Some? ==>
        (Authorize(uuid(user.id).value, metastoreId.value, Owner) <==>
         old(Authorize(uuid(user.id).value, metastoreId.value, Owner)) ||
         IsEmailInAllowlist(user.email, Some(allowedEmails), Some(allowedDomains)))
    {
      if metastoreId.Some? {
        GrantedIffAllowlisted(user, allowedEmails, allowedDomains, metastoreId.value, uuid);
      }
      if allowedEmails == [] && allowedDomains == [] {
        return;
      }
      if user.email.None? || IsBlank(user.email.value) {
        return;
      }
      if IsEmailInAllowlist(user.email, Some(allowedEmails), Some(allowedDomains)) {
        if metastoreId.None? {
          return;
        }
        var principal := uuid(user.id);
        if principal.None? {
          return;
        }
        grants := grants + {Grant(principal.value, metastoreId.value, Owner)};
      }
    }

    /** authorize: does the principal hold the privilege on the resource? */
    predicate Authorize(principal: string, resource: string, privilege: Privilege)
      reads this
    {
      Grant(principal, resource, privilege) in grants
    }
  }

  /** A user with the given address, as the bootstrap tests create one. */
  function TestUser(id: string, email: string): User
  {
    NewUser(id, "user", email, None)
  }

  /** An address that starts with a letter is not blank. */
  lemma NotBlankFromFirst(s: string)
    requires |s| > 0 && !IsTrimmed(s[0])
    ensures !IsBlank(s)
  {
    BlankIffAllTrimmed(s);
  }

  /** An address already in lower case with no surrounding blanks is its own normal form. */
  lemma NormalFormOfCanonical(s: string)
    requires |s| > 0 && !IsTrimmed(s[0]) && !IsTrimmed(s[|s| - 1])
    requires forall i :: 0 <= i < |s| ==> !('A' <= s[i] <= 'Z')
    ensures NormalizeEmail(Some(s)) == s
  {
    TrimOfUntrimmable(s);
    ToLowerOfLower(s);
  }

  /** The exact-address scenario: "admin@example.com" on the list is granted. */
  lemma ExactEmailGranted(id: string, metastoreId: string, uuid: UuidParse, principal: string)
    requires uuid(id) == Some(principal)
    ensures GrantsFor(TestUser(id, "admin@example.com"), ["admin@example.com"], [], Some(metastoreId), uuid)
            == {Grant(principal, metastoreId, Owner)}
  {
    var e := "admin@example.com";
    NotBlankFromFirst(e);
    NormalFormOfCanonical(e);
    assert MatchesExact(NormalizeEmail(Some(e)), [e][0]);
  }

  /** The case-insensitive scenario: "ADMIN@EXAMPLE.COM" matches the entry "admin@example.com". */
  lemma UpperCaseEmailGranted(id: string, metastoreId: string, uuid: UuidParse, principal: string)
    requires uuid(id) == Some(principal)
    ensures GrantsFor(TestUser(id, "ADMIN@EXAMPLE.COM"), ["admin@example.com"], [], Some(metastoreId), uuid)
            == {Grant(principal, metastoreId, Owner)}
  {
    var upper := "ADMIN@EXAMPLE.COM";
    var lower := "admin@example.com";
    NotBlankFromFirst(upper);
    NormalFormOfCanonical(lower);
    TrimOfUntrimmable(upper);
    assert ToLower(upper) == lower by {
      assert forall i :: 0 <= i < |upper| ==> LowerChar(upper[i]) == lower[i];
    }
    assert MatchesExact(NormalizeEmail(Some(upper)), [lower][0]);
  }

  /** The domain scenario: "alice@company.com" matches the entry "@company.com". */
  lemma DomainEmailGranted(id: string, metastoreId: string, uuid: UuidParse, principal: string)
    requires uuid(id) == Some(principal)
    ensures GrantsFor(TestUser(id, "alice@company.com"), [], ["@company.com"], Some(metastoreId), uuid)
            == {Grant(principal, metastoreId, Owner)}
  {
    var e := "alice@company.com";
    var d := "@company.com";
    NotBlankFromFirst(e);
    NormalFormOfCanonical(e);
    NormalFormOfCanonical(d);
    assert NormalizeDomain(d) == d;
    assert e[|e| - |d|..] == d;
    assert MatchesDomain(e, [d][0]);
  }

  /** The multiple-domain scenario: "bob@partner.org" matches the second of two domain entries. */
  lemma SecondDomainGranted(id: string, metastoreId: string, uuid: UuidParse, principal: string)
    requires uuid(id) == Some(principal)
    ensures GrantsFor(TestUser(id, "bob@partner.org"), [], ["@company.com", "@partner.org"], Some(metastoreId), uuid)
            == {Grant(principal, metastoreId, Owner)}
  {
    var e := "bob@partner.org";
    var d := "@partner.org";
    NotBlankFromFirst(e);
    NormalFormOfCanonical(e);
    NormalFormOfCanonical(d);
    assert NormalizeDomain(d) == d;
    assert e[|e| - |d|..] == d;
    assert MatchesDomain(e, ["@company.com", d][1]);
  }

  /** The no-match scenario: "user@other.com" is not "admin@example.com", so nothing is granted. */
  lemma OtherEmailNotGranted(id: string, metastoreId: string, uuid: UuidParse)
    ensures GrantsFor(TestUser(id, "user@other.com"), ["admin@example.com"], [], Some(metastoreId), uuid) == {}
  {
    var e := "user@other.com";
    var entry := "admin@example.com";
    NormalFormOfCanonical(e);
    NormalFormOfCanonical(entry);
    assert !MatchesExact(e, [entry][0]) by {
      assert |e| != |entry|;
    }
  }

  /** The empty scenario: with no allowlist configured nobody is granted. */
  lemma EmptyAllowlistGrantsNothing(user: User, metastoreId: Option<string>, uuid: UuidParse)
    ensures GrantsFor(user, [], [], metastoreId, uuid) == {}
  {
  }
}
