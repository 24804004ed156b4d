/**
 * The admin bootstrap allowlist matcher (AdminAllowlistValidator): a user's
 * email is matched against a list of exact addresses and a list of `@domain`
 * patterns, ignoring case and surrounding whitespace. A domain pattern matches
 * only as a suffix of the entire address, so subdomains never match.
 */
module AdminAllowlist {
  import opened Common

  /** normalizeEmail: `null` becomes the empty string, anything else is trimmed and lower-cased. */
  function NormalizeEmail(email: Option<string>): string
  {
    if email.None? then "" else ToLower(Trim(email.value))
  }

  /** A normalised address is its own trim and its own lower-case form. */
  lemma NormalizedIsCanonical(email: Option<string>)
    ensures Trim(NormalizeEmail(email)) == NormalizeEmail(email)
    ensures ToLower(NormalizeEmail(email)) == NormalizeEmail(email)
  {
    if email.Some? {
      TrimToLower(Trim(email.value));
      TrimIdempotent(email.value);
    }
  }

  /** Normalising twice is normalising once. */
  lemma NormalizeIdempotent(email: Option<string>)
    ensures NormalizeEmail(Some(NormalizeEmail(email))) == NormalizeEmail(email)
  {
    NormalizedIsCanonical(email);
  }

  /** An address is null or blank exactly when it normalises to the empty string. */
  lemma NormalizeEmptyIffNullOrBlank(email: Option<string>)
    ensures NormalizeEmail(email) == "" <==> IsNullOrBlank(email)
  {
  }

  /** isValidDomain: non-null, not blank, and starting with '@' once trimmed. */
  predicate IsValidDomain(domain: Option<string>)
  {
    domain.Some? && !IsBlank(domain.value) && StartsWith(Trim(domain.value), "@")
  }

  /** The blank test in isValidDomain is implied by the '@' test. */
  lemma IsValidDomainIffAt(domain: string)
    ensures IsValidDomain(Some(domain)) <==> |Trim(domain)| > 0 && Trim(domain)[0] == '@'
  {
  }

  /** The loop over the exact list compares normalised forms. */
  predicate MatchesExact(normalized: string, entry: string)
  {
    normalized == NormalizeEmail(Some(entry))
  }

  /** The loop over the domain list lower-cases and trims each entry first. */
  function NormalizeDomain(entry: string): string
  {
    ToLower(Trim(entry))
  }

  predicate MatchesDomain(normalized: string, entry: string)
  {
    IsValidDomain(Some(NormalizeDomain(entry))) && EndsWith(normalized, NormalizeDomain(entry))
  }

  /** The first `for` loop of isEmailInAllowlist: it returns at the first entry that matches. */
  function ExactListMatches(normalized: string, allowedEmails: seq<string>): (r: bool)
    ensures r <==> exists i :: 0 <= i < |allowedEmails| && MatchesExact(normalized, allowedEmails[i])
  {
    if allowedEmails == [] then false
    else if MatchesExact(normalized, allowedEmails[0]) then true
    else
      var rest := ExactListMatches(normalized, allowedEmails[1..]);
      assert forall i :: 1 <= i < |allowedEmails| ==> allowedEmails[i] == allowedEmails[1..][i - 1];
      rest
  }

  /** The second `for` loop of isEmailInAllowlist. */
  function DomainListMatches(normalized: string, allowedDomains: seq<string>): (r: bool)
    ensures r <==> exists i :: 0 <= i < |allowedDomains| && MatchesDomain(normalized, allowedDomains[i])
  {
    if allowedDomains == [] then false
    else if MatchesDomain(normalized, allowedDomains[0]) then true
    else
      var rest := DomainListMatches(normalized, allowedDomains[1..]);
      assert forall i :: 1 <= i < |allowedDomains| ==> allowedDomains[i] == allowedDomains[1..][i - 1];
      rest
  }

  /**
   * isEmailInAllowlist. A null list behaves as an empty one. The result holds
   * exactly when the address is not blank and some exact entry or some domain
   * entry matches it.
   */
  function IsEmailInAllowlist(email: Option<string>, allowedEmails: Option<seq<string>>,
                              allowedDomains: Option<seq<string>>): (r: bool)
    ensures IsNullOrBlank(email) ==> !r
    ensures r <==> (!IsNullOrBlank(email) &&
      ((allowedEmails.Some? &&
        exists i :: 0 <= i < |allowedEmails.value| && MatchesExact(NormalizeEmail(email), allowedEmails.value[i])) ||
       (allowedDomains.Some? &&
        exists i :: 0 <= i < |allowedDomains.value| && MatchesDomain(NormalizeEmail(email), allowedDomains.value[i]))))
  {
    if IsNullOrBlank(email) then false
    else
      var normalized := NormalizeEmail(email);
      if allowedEmails.Some? && ExactListMatches(normalized, allowedEmails.value) then true
      else allowedDomains.Some? && DomainListMatches(normalized, allowedDomains.value)
  }

  /** A domain entry matches exactly when, normalised, it starts with '@' and ends the normalised address. */
  lemma MatchesDomainIff(normalized: string, entry: string)
    ensures MatchesDomain(normalized, entry) <==>
      StartsWith(NormalizeDomain(entry), "@") && EndsWith(normalized, NormalizeDomain(entry))
  {
    NormalizedIsCanonical(Some(entry));
    assert NormalizeDomain(entry) == NormalizeEmail(Some(entry));
  }

  /** With both lists empty or null, no address is in the allowlist. */
  lemma EmptyAllowlistMatchesNothing(email: Option<string>, allowedEmails: Option<seq<string>>,
                                     allowedDomains: Option<seq<string>>)
    requires allowedEmails.None? || allowedEmails.value == []
    requires allowedDomains.None? || allowedDomains.value == []
    ensures !IsEmailInAllowlist(email, allowedEmails, allowedDomains)
  {
  }

  /**
   * The decision depends on the address only through its normalised form, so
   * case and surrounding whitespace of the address never matter.
   */
  lemma DecisionDependsOnNormalizedEmail(e1: string, e2: string, allowedEmails: Option<seq<string>>,
                                         allowedDomains: Option<seq<string>>)
    requires NormalizeEmail(Some(e1)) == NormalizeEmail(Some(e2))
    ensures IsEmailInAllowlist(Some(e1), allowedEmails, allowedDomains) ==
            IsEmailInAllowlist(Some(e2), allowedEmails, allowedDomains)
  {
    NormalizeEmptyIffNullOrBlank(Some(e1));
    NormalizeEmptyIffNullOrBlank(Some(e2));
  }

  /** An exact entry matches every spelling of itself that differs only in case and surrounding whitespace. */
  lemma ExactEntryMatchesItsSpellings(email: string, entry: string, allowedDomains: Option<seq<string>>)
    requires !IsBlank(email)
    requires NormalizeEmail(Some(email)) == NormalizeEmail(Some(entry))
    ensures IsEmailInAllowlist(Some(email), Some([entry]), allowedDomains)
  {
    assert MatchesExact(NormalizeEmail(Some(email)), [entry][0]);
  }

  /** Adding entries to either list never turns a match into a non-match. */
  lemma AllowlistMonotone(email: Option<string>, emails1: seq<string>, domains1: seq<string>,
                          emails2: seq<string>, domains2: seq<string>)
    requires forall x :: x in emails1 ==> x in emails2
    requires forall x :: x in domains1 ==> x in domains2
    requires IsEmailInAllowlist(email, Some(emails1), Some(domains1))
    ensures IsEmailInAllowlist(email, Some(emails2), Some(domains2))
  {
    var n := NormalizeEmail(email);
    if i :| 0 <= i < |emails1| && MatchesExact(n, emails1[i]) {
      assert emails1[i] in emails2;
      var j :| 0 <= j < |emails2| && emails2[j] == emails1[i];
      assert MatchesExact(n, emails2[j]);
    } else {
      var i :| 0 <= i < |domains1| && MatchesDomain(n, domains1[i]);
      assert domains1[i] in domains2;
      var j :| 0 <= j < |domains2| && domains2[j] == domains1[i];
      assert MatchesDomain(n, domains2[j]);
    }
  }

  /** Examples of normalisation: mixed case folds to lower case, leading and trailing blanks are dropped. */
  lemma NormalizeExamples()
    ensures NormalizeEmail(Some("Admin@Company.com")) == "admin@company.com"
    ensures NormalizeEmail(Some("\ttest@test.com\n")) == "test@test.com"
  {
    var mixed := "Admin@Company.com";
    TrimOfUntrimmable(mixed);
    assert ToLower(mixed) == "admin@company.com" by {
      assert ToLower(mixed)[0] == 'a';
      assert ToLower(mixed)[6] == 'c';
      assert forall i :: 0 <= i < |mixed| && i != 0 && i != 6 ==> ToLower(mixed)[i] == mixed[i];
    }
    var padded := "\ttest@test.com\n";
    var inner := "test@test.com";
    assert TrimStart(padded) == padded[1..] by {
      TrimStartOfTrimmed(padded[1..]);
    }
    assert TrimEnd(padded[1..]) == inner by {
      assert padded[1..][..|padded[1..]| - 1] == inner;
      TrimEndOfTrimmed(inner);
    }
    ToLowerOfLower(inner);
  }

  /** No subdomain matching: "@company.com" does not admit "user@sub.company.com"... */
  lemma SubdomainDoesNotMatch()
    ensures !IsEmailInAllowlist(Some("user@sub.company.com"), Some([]), Some(["@company.com"]))
  {
    var d := "@company.com";
    var sub := "user@sub.company.com";
    assert NormalizeDomain(d) == d by {
      TrimOfUntrimmable(d);
      ToLowerOfLower(d);
    }
    assert NormalizeEmail(Some(sub)) == sub by {
      TrimOfUntrimmable(sub);
      ToLowerOfLower(sub);
    }
    assert !EndsWith(sub, d) by {
      assert sub[|sub| - |d|] == '.';
    }
    assert !IsBlank(sub) by {
      BlankIffAllTrimmed(sub);
      assert !IsTrimmed(sub[0]);
    }
    assert !MatchesDomain(sub, [d][0]);
  }
  /** ... but it does admit "user@company.com". */
  lemma ExactDomainMatches()
    ensures IsEmailInAllowlist(Some("user@company.com"), Some([]), Some(["@company.com"]))
  {
    var d := "@company.com";
    var top := "user@company.com";
    assert NormalizeDomain(d) == d by {
      TrimOfUntrimmable(d);
      ToLowerOfLower(d);
    }
    assert NormalizeEmail(Some(top)) == top by {
      TrimOfUntrimmable(top);
      ToLowerOfLower(top);
    }
    assert !IsBlank(top) by {
      BlankIffAllTrimmed(top);
      assert !IsTrimmed(top[0]);
    }
    assert IsValidDomain(Some(d)) by {
      TrimOfUntrimmable(d);
    }
    assert EndsWith(top, d);
    assert MatchesDomain(top, [d][0]);
  }
}
