/**
 * The OpenID Connect Discovery 1.0 part of key loading (the URL and issuer
 * logic of JwksOperations.loadJwkProvider): the issuer gets a scheme when it
 * has none, the configuration is requested from
 * `<issuer>/.well-known/openid-configuration` (section 4.1), and the returned
 * configuration must name the same issuer (section 4.3) and a `jwks_uri`.
 */
module Discovery {
  import opened Common

  /** SecurityContext.Issuers.INTERNAL, the issuer of the server's own tokens. */
  const INTERNAL: string := "internal"

  const WELL_KNOWN_PATH: string := ".well-known/openid-configuration"

  predicate HasScheme(issuer: string)
  {
    StartsWith(issuer, "https://") || StartsWith(issuer, "http://")
  }

  /** An issuer with neither scheme gets "https://" in front; one with a scheme is kept. */
  function NormalizeIssuer(issuer: string): (r: string)
    ensures HasScheme(r)
    ensures HasScheme(issuer) ==> r == issuer
    ensures !HasScheme(issuer) ==> r == "https://" + issuer
  {
    if !StartsWith(issuer, "https://") && !StartsWith(issuer, "http://") then "https://" + issuer else issuer
  }

  lemma NormalizeIssuerIdempotent(issuer: string)
    ensures NormalizeIssuer(NormalizeIssuer(issuer)) == NormalizeIssuer(issuer)
  {
  }

  /** The discovery URL: the normalised issuer, a '/' unless it already ends with one, and the well-known path. */
  function WellKnownConfigUrl(issuer: string): (url: string)
    ensures StartsWith(url, NormalizeIssuer(issuer))
    ensures EndsWith(url, "/" + WELL_KNOWN_PATH)
    ensures url == (if EndsWith(NormalizeIssuer(issuer), "/") then NormalizeIssuer(issuer)
                    else NormalizeIssuer(issuer) + "/") + WELL_KNOWN_PATH
  {
    var base := NormalizeIssuer(issuer);
    var withSlash := if EndsWith(base, "/") then base else base + "/";
    assert withSlash[|withSlash| - 1] == '/';
    var url := withSlash + WELL_KNOWN_PATH;
    assert url[..|base|] == base;
    assert url[|url| - |"/" + WELL_KNOWN_PATH|..] == withSlash[|withSlash| - 1..] + WELL_KNOWN_PATH;
    url
  }

  /** With a scheme present, a trailing '/' on the issuer makes no difference to the discovery URL. */
  lemma TrailingSlashIrrelevant(issuer: string)
    requires HasScheme(issuer) && !EndsWith(issuer, "/")
    ensures WellKnownConfigUrl(issuer + "/") == WellKnownConfigUrl(issuer)
  {
    assert (issuer + "/")[..|"https://"|] == issuer[..|"https://"|] || !StartsWith(issuer, "https://");
    assert (issuer + "/")[..|"http://"|] == issuer[..|"http://"|] || !StartsWith(issuer, "http://");
    assert HasScheme(issuer + "/");
    assert EndsWith(issuer + "/", "/");
  }

  /** Example: a bare host gets the https scheme. */
  lemma BareHostExample()
    ensures WellKnownConfigUrl("accounts.example.com") == "https://" + "accounts.example.com" + "/" + WELL_KNOWN_PATH
  {
    var bare := "accounts.example.com";
    assert !StartsWith(bare, "https://") && !StartsWith(bare, "http://") by {
      assert bare[0] != 'h';
    }
    var base := "https://" + bare;
    assert NormalizeIssuer(bare) == base;
    assert !EndsWith(base, "/") by {
      assert base[|base| - 1] == 'm';
    }
  }

  /** Example: an issuer that already has a scheme and a trailing '/' is used as it is. */
  lemma ConfiguredIssuerExample()
    ensures WellKnownConfigUrl("http://localhost:8080/") == "http://localhost:8080/" + WELL_KNOWN_PATH
  {
    var local := "http://localhost:8080/";
    assert StartsWith(local, "http://");
    assert EndsWith(local, "/");
  }

  /** The parsed configuration document: each key with its text value, or null. */
  type Config = map<string, Option<string>>

  /** Map.get with a cast to String: null for a missing key. */
  function ConfigValue(config: Config, key: string): Option<string>
  {
    if key in config then config[key] else None
  }

  datatype ConfigError =
    | NoConfiguration    // "Could not get issuer configuration"
    | ConfigIssuerNull   // configIssuer.equals(...) on null: NullPointerException
    | IssuerMismatch     // "Issuer doesn't match configuration"
    | JwksUriMissing     // "JWKS configuration missing"

  /**
   * The checks on the configuration document, against the normalised issuer:
   * non-empty, then the same issuer, then a `jwks_uri`, which is the result.
   */
  function CheckConfiguration(config: Option<Config>, issuer: string): (r: Result<string, ConfigError>)
    ensures r.Ok? <==>
      && config.Some? && |config.value| > 0
      && ConfigValue(config.value, "issuer") == Some(issuer)
      && ConfigValue(config.value, "jwks_uri").Some?
    ensures r.Ok? ==> r.value == ConfigValue(config.value, "jwks_uri").value
    ensures config.None? || |config.value| == 0 ==> r == Err(NoConfiguration)
  {
    if config.None? || |config.value| == 0 then Err(NoConfiguration)
    else
      var configIssuer := ConfigValue(config.value, "issuer");
      var jwksUri := ConfigValue(config.value, "jwks_uri");
      if configIssuer.None? then Err(ConfigIssuerNull)
      else if configIssuer.value != issuer then Err(IssuerMismatch)
      else if jwksUri.None? then Err(JwksUriMissing)
      else Ok(jwksUri.value)
  }

  /** The issuer comparison is made before the `jwks_uri` check: a mismatching document fails on the issuer even without a key set. */
  lemma MismatchReportedFirst(config: Config, issuer: string)
    requires |config| > 0 && ConfigValue(config, "issuer").Some? && ConfigValue(config, "issuer") != Some(issuer)
    ensures CheckConfiguration(Some(config), issuer) == Err(IssuerMismatch)
  {
  }
}
