/**
 * The double-submit CSRF guard: a `csrf_token` cookie readable by the page,
 * echoed back in `X-CSRF-Token` on unsafe requests that authenticate with
 * the session cookie. The random token of `issueToken` is a parameter.
 */
module Csrf {
  import opened Wrappers
  import opened JsString

  const CsrfCookie: string := "csrf_token"
  const AccessCookie: string := "access_token"
  const InvalidCsrf: string := "Invalid CSRF token"

  /** Seven days in milliseconds. */
  const MaxAgeMs: int := 7 * 24 * 60 * 60 * 1000

  datatype Cookie = Cookie(
    name: string, value: string, httpOnly: bool, secure: bool, sameSite: string, maxAge: int, path: string)

  /** The parts of a request the guard reads. */
  datatype CsrfRequest = CsrfRequest(
    httpMethod: string,
    path: string,
    cookies: map<string, string>,
    authorization: Option<string>,
    csrfHeader: Option<string>)

  datatype Decision = Next | Forbidden(status: int, message: string)

  /** The cookie `issueToken` sets; `secure` follows whether the server runs in production. */
  function TokenCookie(token: string, isProd: bool): Cookie {
    Cookie(CsrfCookie, token, false, isProd, "lax", MaxAgeMs, "/")
  }

  predicate IsSafe(httpMethod: string) {
    ToUpper(httpMethod) in {"GET", "HEAD", "OPTIONS"}
  }

  /** `Boolean(req.cookies?.access_token)`. */
  predicate HasSessionCookie(req: CsrfRequest) {
    AccessCookie in req.cookies && req.cookies[AccessCookie] != ""
  }

  predicate HasBearerAuth(req: CsrfRequest) {
    req.authorization.Some? && StartsWith(req.authorization.value, "Bearer ")
  }

  predicate IsAuthPath(path: string) {
    StartsWith(path, "/api/auth/login") || StartsWith(path, "/api/auth/register")
  }

  /** `existingToken ?? issueToken(res)`: an existing cookie is used even when it is empty. */
  function ComparisonToken(req: CsrfRequest, freshToken: string): string {
    if CsrfCookie in req.cookies then req.cookies[CsrfCookie] else freshToken
  }

  /** The cookie written while handling the request, if any. */
  function IssuedCookie(req: CsrfRequest, freshToken: string, isProd: bool): Option<Cookie> {
    if CsrfCookie in req.cookies then None else Some(TokenCookie(freshToken, isProd))
  }

  /** The guard's decision once the comparison token is known. */
  function Check(req: CsrfRequest, token: string): Decision {
    if IsAuthPath(req.path) then Next
    else if !IsSafe(req.httpMethod) && HasSessionCookie(req) && !HasBearerAuth(req) then
      if req.csrfHeader.None? || Trim(req.csrfHeader.value) == "" || Trim(req.csrfHeader.value) != token
      then Forbidden(403, InvalidCsrf)
      else Next
    else Next
  }

  /** The only refusal is 403 "Invalid CSRF token". */
  lemma {:induction false} OnlyForbidden(req: CsrfRequest, token: string)
    ensures Check(req, token) == Next || Check(req, token) == Forbidden(403, InvalidCsrf)
  {
  }

  /** Safe methods in any letter case, and the login and register paths, always pass. */
  lemma {:induction false} ExemptRequestsPass(req: CsrfRequest, token: string)
    ensures IsSafe(req.httpMethod) ==> Check(req, token) == Next
    ensures IsAuthPath(req.path) ==> Check(req, token) == Next
    ensures IsSafe("get") && IsSafe("Options") && !IsSafe("POST")
  {
    assert ToUpper("get") == "GET";
    assert ToUpper("Options") == "OPTIONS";
    assert ToUpper("POST") == "POST";
  }

  /** Without the session cookie, or with a bearer header, no token is asked for. */
  lemma {:induction false} OnlySessionCookieIsChecked(req: CsrfRequest, token: string)
    requires !HasSessionCookie(req) || HasBearerAuth(req)
    ensures Check(req, token) == Next
  {
  }

  /**
   * A checked request (unsafe, session cookie, no bearer, not an auth path)
   * passes exactly when its trimmed header is non-empty and equal to the token.
   */
  lemma {:induction false} CheckedRequests(req: CsrfRequest, token: string)
    requires !IsSafe(req.httpMethod) && HasSessionCookie(req) && !HasBearerAuth(req) && !IsAuthPath(req.path)
    ensures Check(req, token) == Next <==>
      req.csrfHeader.Some? && Trim(req.csrfHeader.value) != "" && Trim(req.csrfHeader.value) == token
  {
  }

  /** An empty `csrf_token` cookie is kept as the token, and then no checked request passes. */
  lemma {:induction false} EmptyCookieBlocks(req: CsrfRequest, freshToken: string)
    requires CsrfCookie in req.cookies && req.cookies[CsrfCookie] == ""
    requires !IsSafe(req.httpMethod) && HasSessionCookie(req) && !HasBearerAuth(req) && !IsAuthPath(req.path)
    ensures ComparisonToken(req, freshToken) == "" && IssuedCookie(req, freshToken, true).None?
    ensures Check(req, ComparisonToken(req, freshToken)) == Forbidden(403, InvalidCsrf)
  {
  }

  /**
   * A fresh token is issued exactly when the request has no `csrf_token`
   * cookie, whatever the decision; the cookie is readable by scripts, lax,
   * site-wide and lives seven days.
   */
  lemma {:induction false} IssuedCookieAttributes(req: CsrfRequest, freshToken: string, isProd: bool)
    ensures IssuedCookie(req, freshToken, isProd).Some? <==> CsrfCookie !in req.cookies
    ensures IssuedCookie(req, freshToken, isProd).Some? ==>
      var c := IssuedCookie(req, freshToken, isProd).value;
      c.name == CsrfCookie && c.value == freshToken == ComparisonToken(req, freshToken)
      && !c.httpOnly && c.secure == isProd && c.sameSite == "lax" && c.path == "/"
      && c.maxAge == 604800000
  {
  }

  /** The response the guard may write a cookie onto. */
  class Response {
    var cookies: seq<Cookie>

    constructor ()
      ensures cookies == []
    {
      cookies := [];
    }

    /** `issueToken`: sets the cookie and returns its value. */
    method IssueToken(freshToken: string, isProd: bool) returns (token: string)
      modifies this
      ensures token == freshToken
      ensures cookies == old(cookies) + [TokenCookie(freshToken, isProd)]
    {
      cookies := cookies + [TokenCookie(freshToken, isProd)];
      token := freshToken;
    }

    /** `csrfProtection`: possibly issues the cookie, then decides. */
    method CsrfProtection(req: CsrfRequest, freshToken: string, isProd: bool) returns (d: Decision)
      modifies this
      ensures d == Check(req, ComparisonToken(req, freshToken))
      ensures cookies == old(cookies) + (if CsrfCookie in req.cookies then [] else [TokenCookie(freshToken, isProd)])
    {
      var token: string;
      if CsrfCookie in req.cookies {
        token := req.cookies[CsrfCookie];
      } else {
        token := IssueToken(freshToken, isProd);
      }
      d := Check(req, token);
    }
  }
}
