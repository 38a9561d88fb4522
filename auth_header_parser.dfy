// Token extraction of src/communication/server/authenticators/AuthenticationHeaderParser.ts.
module AuthenticationHeaderParser {
  import opened Wrappers
  import opened JsSemantics
  import opened Requests

  /** `'Bearer '.length`. */
  const BearerLength := |"Bearer "|

  /** Reading `request.cookies[cookie]` when `request.cookies` is undefined throws a TypeError. */
  datatype ParseError = CookiesUndefined

  /**
   * parseAuthorizationHeader: undefined without an Authorization header, else the header with
   * its first BearerLength characters dropped, whatever they are.
   */
  function ParseAuthorizationHeader(h: RequestHead): (token: Option<string>)
    ensures token.None? <==> AuthorizationHeader !in h.headers
    ensures token.Some? && |h.headers[AuthorizationHeader]| >= BearerLength ==>
              h.headers[AuthorizationHeader] == h.headers[AuthorizationHeader][..BearerLength] + token.value
    ensures token.Some? && |h.headers[AuthorizationHeader]| <= BearerLength ==> token.value == ""
  {
    if AuthorizationHeader in h.headers then
      var header := h.headers[AuthorizationHeader];
      SubstringToEnd(header, BearerLength);
      Some(Substring(header, BearerLength, |header|))
    else None
  }

  /** parseCookieHeader: the cookie named `cookie` ("undefined" when no name is configured). */
  function ParseCookieHeader(h: RequestHead, cookie: Option<string>): (r: Result<Option<string>, ParseError>)
    ensures r.Failure? <==> h.cookies.None?
    ensures r.Success? ==> (r.value.Some? <==> PropertyKey(cookie) in h.cookies.value)
    ensures r.Success? && r.value.Some? ==> r.value.value == h.cookies.value[PropertyKey(cookie)]
  {
    match h.cookies
    case None => Failure(CookiesUndefined)
    case Some(cookies) =>
      var key := PropertyKey(cookie);
      Success(if key in cookies then Some(cookies[key]) else None)
  }

  /** A string, or undefined, is truthy exactly when it is a non-empty string. */
  predicate Truthy(t: Option<string>) {
    t.Some? && t.value != ""
  }

  /**
   * parseJWTToken: the header-derived token when it is truthy, otherwise the cookie. The cookie
   * jar is consulted only in the second case, so only then can the missing jar throw.
   */
  function ParseJWTToken(h: RequestHead, cookie: Option<string>): (r: Result<Option<string>, ParseError>)
    ensures Truthy(ParseAuthorizationHeader(h)) ==> r == Success(ParseAuthorizationHeader(h))
    ensures !Truthy(ParseAuthorizationHeader(h)) ==> r == ParseCookieHeader(h, cookie)
  {
    var header := ParseAuthorizationHeader(h);
    if Truthy(header) then Success(header) else ParseCookieHeader(h, cookie)
  }

  /**
   * The inline parse of the permissive middlewares: an Authorization header that is present and
   * non-empty, minus its first BearerLength characters; nothing otherwise.
   */
  function HeaderToken(h: RequestHead): (token: Option<string>)
    ensures token.Some? <==> AuthorizationHeader in h.headers && h.headers[AuthorizationHeader] != ""
    ensures token.Some? ==> token == ParseAuthorizationHeader(h)
  {
    if AuthorizationHeader in h.headers && h.headers[AuthorizationHeader] != "" then ParseAuthorizationHeader(h)
    else None
  }

  /** Any BearerLength characters are dropped, not only "Bearer ": "Basic x" + t yields t. */
  lemma HeaderPrefixIgnored(h: RequestHead, prefix: string, t: string)
    requires |prefix| == BearerLength
    requires AuthorizationHeader in h.headers && h.headers[AuthorizationHeader] == prefix + t
    ensures ParseAuthorizationHeader(h) == Some(t)
  {
    SubstringDropsPrefix(prefix, t);
  }

  /** "Bearer " + t yields t, and a non-empty t wins over any cookie, even with no cookie jar. */
  lemma BearerTokenWins(h: RequestHead, cookie: Option<string>, t: string)
    requires AuthorizationHeader in h.headers && h.headers[AuthorizationHeader] == "Bearer " + t
    requires t != ""
    ensures ParseJWTToken(h, cookie) == Success(Some(t))
  {
    HeaderPrefixIgnored(h, "Bearer ", t);
  }

  /** A header of BearerLength characters or fewer yields "", which is falsy, so the cookie is used. */
  lemma ShortHeaderFallsBack(h: RequestHead, cookie: Option<string>)
    requires AuthorizationHeader in h.headers && |h.headers[AuthorizationHeader]| <= BearerLength
    ensures ParseJWTToken(h, cookie) == ParseCookieHeader(h, cookie)
  {
  }

  /** Without an Authorization header the token is the cookie's value, possibly undefined. */
  lemma NoHeaderUsesCookie(h: RequestHead, cookie: Option<string>, jar: map<string, string>)
    requires AuthorizationHeader !in h.headers && h.cookies == Some(jar)
    ensures ParseJWTToken(h, cookie) == Success(if PropertyKey(cookie) in jar then Some(jar[PropertyKey(cookie)]) else None)
  {
  }
}
