/**
 * The request and response vocabulary the authentication code shares: the
 * server's error codes with their messages, request cookies, the Set-Cookie
 * values it emits, and the `UC_TOKEN` session cookie.
 */
module ServerHttp {
  import opened Common

  /** ErrorCode, as far as the authentication code uses it. */
  datatype ErrorCode = InvalidArgument | PermissionDenied | Unauthenticated | Aborted | Internal

  /** A thrown OAuthInvalidRequestException, AuthorizationException or BaseException: its code and message. */
  datatype Failure = Failure(code: ErrorCode, message: string)

  /** Java string concatenation of a possibly null string. */
  function JavaString(s: Option<string>): (r: string)
    ensures s.Some? ==> r == s.value
    ensures s.None? ==> r == "null"
  {
    if s.Some? then s.value else "null"
  }

  /** AuthDecorator.UC_TOKEN_KEY, the name of the session cookie. */
  const UC_TOKEN_KEY: string := "UC_TOKEN"

  /** A cookie sent with a request. */
  datatype RequestCookie = RequestCookie(name: string, value: string)

  /** A cookie set by a response, built by createCookie with the secure builder. */
  datatype SetCookie = SetCookie(name: string, value: string, path: string, maxAgeSeconds: int)

  /** The position of the first cookie with the given name. */
  function FirstCookieIndex(cookies: seq<RequestCookie>, name: string): (r: Option<nat>)
    ensures r.None? <==> forall i :: 0 <= i < |cookies| ==> cookies[i].name != name
    ensures r.Some? ==>
      && r.value < |cookies| && cookies[r.value].name == name
      && forall j :: 0 <= j < r.value ==> cookies[j].name != name
  {
    if cookies == [] then None
    else if cookies[0].name == name then Some(0)
    else
      match FirstCookieIndex(cookies[1..], name)
      case None =>
        assert forall i :: 1 <= i < |cookies| ==> cookies[i] == cookies[1..][i - 1];
        None
      case Some(k) =>
        assert forall j :: 1 <= j < k + 1 ==> cookies[j] == cookies[1..][j - 1];
        Some(k + 1)
  }

  /** The value of the first cookie with the given name (cookies().stream().filter(...).findFirst()). */
  function FirstCookie(cookies: seq<RequestCookie>, name: string): (r: Option<string>)
    ensures r.Some? <==> exists i :: 0 <= i < |cookies| && cookies[i].name == name
    ensures r.Some? ==> exists i :: 0 <= i < |cookies| && cookies[i].name == name && cookies[i].value == r.value &&
                                    forall j :: 0 <= j < i ==> cookies[j].name != name
  {
    match FirstCookieIndex(cookies, name)
    case None => None
    case Some(i) => Some(cookies[i].value)
  }

  /** Cookies placed in front with another name do not change which cookie is found. */
  lemma FirstCookieSkipsOthers(other: RequestCookie, cookies: seq<RequestCookie>, name: string)
    requires other.name != name
    ensures FirstCookie([other] + cookies, name) == FirstCookie(cookies, name)
  {
    assert ([other] + cookies)[1..] == cookies;
  }
}
