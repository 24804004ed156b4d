/**
 * JwksHttpClientFactory: the choice of HTTP client that fetches JWKS and
 * discovery documents, by the `jwks.http-client` setting. A missing or
 * blank setting selects Armeria; otherwise the setting, lower-cased but not
 * trimmed, must name "armeria" or "java".
 */
module JwksClients {
  import opened Common

  const ARMERIA_CLIENT: string := "armeria"
  const JAVA_CLIENT: string := "java"

  /** The request timeout used when the caller gives none, in seconds. */
  const DEFAULT_TIMEOUT_SECONDS: int := 10

  datatype ClientKind = Armeria | JavaHttp

  /** A client as constructed: its implementation and its request timeout in seconds. */
  datatype JwksHttpClient = JwksHttpClient(kind: ClientKind, timeoutSeconds: int)

  /** The IllegalArgumentException message for a setting that names no client. */
  function UnsupportedMessage(clientType: string): string
  {
    "Unsupported JWKS HTTP client type: " + clientType + ". Supported types: armeria, java"
  }

  /** create(clientType, timeout). */
  function Create(clientType: Option<string>, timeoutSeconds: int): (r: Result<JwksHttpClient, string>)
    ensures r.Ok? ==> r.value.timeoutSeconds == timeoutSeconds
    ensures r.Ok? <==> IsNullOrBlank(clientType) || ToLower(clientType.value) in {ARMERIA_CLIENT, JAVA_CLIENT}
    ensures r.Ok? ==> (r.value.kind == JavaHttp <==> !IsNullOrBlank(clientType) && ToLower(clientType.value) == JAVA_CLIENT)
    ensures r.Err? ==> r.error == UnsupportedMessage(clientType.value)
  {
    var name := if IsNullOrBlank(clientType) then ARMERIA_CLIENT else clientType.value;
    assert IsNullOrBlank(clientType) ==> ToLower(name) == ARMERIA_CLIENT by {
      ToLowerOfLower(ARMERIA_CLIENT);
    }
    if ToLower(name) == ARMERIA_CLIENT then Ok(JwksHttpClient(Armeria, timeoutSeconds))
    else if ToLower(name) == JAVA_CLIENT then Ok(JwksHttpClient(JavaHttp, timeoutSeconds))
    else Err(UnsupportedMessage(name))
  }

  /** create(properties): the configured client with the default timeout. */
  function CreateFromProperties(clientType: Option<string>): (r: Result<JwksHttpClient, string>)
    ensures r.Ok? ==> r.value.timeoutSeconds == DEFAULT_TIMEOUT_SECONDS
    ensures r.Ok? <==> Create(clientType, 0).Ok?
  {
    Create(clientType, DEFAULT_TIMEOUT_SECONDS)
  }

  /** Lower-casing neither makes nor unmakes a blank string. */
  lemma BlankIgnoresCase(s: string)
    ensures IsBlank(ToLower(s)) <==> IsBlank(s)
  {
    TrimToLower(s);
  }

  /** The choice ignores case: two spellings of a setting that differ only in case build the same client. */
  lemma CreateIgnoresCase(a: string, b: string, timeoutSeconds: int)
    requires EqualsIgnoreCase(a, b)
    ensures Create(Some(a), timeoutSeconds).Ok? <==> Create(Some(b), timeoutSeconds).Ok?
    ensures Create(Some(a), timeoutSeconds).Ok? ==> Create(Some(a), timeoutSeconds) == Create(Some(b), timeoutSeconds)
  {
    BlankIgnoresCase(a);
    BlankIgnoresCase(b);
  }

  /** A missing or blank setting selects Armeria. */
  lemma BlankSelectsArmeria(clientType: Option<string>, timeoutSeconds: int)
    requires IsNullOrBlank(clientType)
    ensures Create(clientType, timeoutSeconds) == Ok(JwksHttpClient(Armeria, timeoutSeconds))
  {
  }

  /** "JAVA" selects the Java client ... */
  lemma UpperCaseJavaAccepted(timeoutSeconds: int)
    ensures Create(Some("JAVA"), timeoutSeconds) == Ok(JwksHttpClient(JavaHttp, timeoutSeconds))
  {
    var s := "JAVA";
    assert !IsBlank(s) by {
      BlankIffAllTrimmed(s);
      assert !IsTrimmed(s[0]);
    }
    assert ToLower(s) == JAVA_CLIENT by {
      assert ToLower(s)[0] == 'j' && ToLower(s)[1] == 'a' && ToLower(s)[2] == 'v' && ToLower(s)[3] == 'a';
    }
  }

  /** ... but the setting is not trimmed: " java" names no client. */
  lemma PaddedNameRejected(timeoutSeconds: int)
    ensures Create(Some(" java"), timeoutSeconds) == Err(UnsupportedMessage(" java"))
  {
    var s := " java";
    assert !IsBlank(s) by {
      BlankIffAllTrimmed(s);
      assert !IsTrimmed(s[1]);
    }
    assert |ToLower(s)| != |JAVA_CLIENT| && |ToLower(s)| != |ARMERIA_CLIENT|;
  }
}
