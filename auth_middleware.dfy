/** `authenticateToken`: where the token comes from and the two 401 answers. */
module AuthMiddleware {
  import opened Wrappers
  import opened JsString
  import opened Jwt
  import RoleCheck

  const NoToken: string := "인증 토큰이 없습니다."
  const BadToken: string := "유효하지 않거나 만료된 토큰입니다."

  /** The middleware's result: `next` with `req.user` set, or a 401 answer. */
  datatype AuthOutcome = Authenticated(user: Payload) | Unauthorized(message: string)

  /** `authHeader && authHeader.split(' ')[1]`, with an empty or missing piece reading as no token. */
  function BearerToken(header: Option<string>): (r: Option<string>)
    ensures r.Some? ==> r.value != ""
  {
    if header.None? || header.value == "" then None
    else
      var pieces := Split(header.value, ' ');
      if |pieces| >= 2 && pieces[1] != "" then Some(pieces[1]) else None
  }

  /** `bearerToken || cookieToken`, `None` when both are falsy. */
  function ExtractToken(header: Option<string>, cookie: Option<string>): (r: Option<string>)
    ensures r.Some? ==> r.value != ""
    ensures BearerToken(header).Some? ==> r == BearerToken(header)
    ensures BearerToken(header).None? ==> r == (if cookie.Some? && cookie.value != "" then cookie else None)
  {
    var bearer := BearerToken(header);
    if bearer.Some? then bearer
    else if cookie.Some? && cookie.value != "" then cookie
    else None
  }

  function AuthenticateToken(env: Env, verify: (string, string) -> Option<Payload>,
                             header: Option<string>, cookie: Option<string>): AuthOutcome {
    match ExtractToken(header, cookie)
    case None => Unauthorized(NoToken)
    case Some(token) =>
      match VerifyToken(env, verify, token)
      case Err(_) => Unauthorized(BadToken)
      case Ok(p) => Authenticated(p)
  }

  /**
   * The scheme word is not checked: a header "X y", for any space-free X and
   * any non-empty space-free y, yields token y, and the cookie is not consulted.
   */
  lemma {:induction false} AnySchemeWord(scheme: string, token: string, cookie: Option<string>)
    requires ' ' !in scheme && ' ' !in token && token != ""
    ensures ExtractToken(Some(scheme + " " + token), cookie) == Some(token)
  {
    SplitAppend(scheme, token, ' ');
    SplitNoSep(token, ' ');
    assert scheme + [' '] + token == scheme + " " + token;
  }

  /** A header with nothing after its first space falls back to the cookie. */
  lemma {:induction false} EmptyBearerFallsBack(scheme: string, cookie: Option<string>)
    requires ' ' !in scheme
    ensures ExtractToken(Some(scheme + " "), cookie) == ExtractToken(None, cookie)
    ensures ExtractToken(Some(scheme), cookie) == ExtractToken(None, cookie)
  {
    SplitAppend(scheme, "", ' ');
    assert scheme + [' '] + "" == scheme + " ";
    SplitNoSep(scheme, ' ');
  }

  /** No token gives the first 401, a rejected token the second, an accepted one the decoded user. */
  lemma {:induction false} Outcomes(env: Env, verify: (string, string) -> Option<Payload>, header: Option<string>, cookie: Option<string>)
    ensures ExtractToken(header, cookie).None? ==> AuthenticateToken(env, verify, header, cookie) == Unauthorized(NoToken)
    ensures ExtractToken(header, cookie).Some? ==>
      match VerifyToken(env, verify, ExtractToken(header, cookie).value)
      case Err(_) => AuthenticateToken(env, verify, header, cookie) == Unauthorized(BadToken)
      case Ok(p) => AuthenticateToken(env, verify, header, cookie) == Authenticated(p)
  {
  }

  /** In production without a usable secret, no request authenticates. */
  lemma {:induction false} ProductionWithoutSecretLocksOut(env: Env, verify: (string, string) -> Option<Payload>,
                                                           header: Option<string>, cookie: Option<string>)
    requires IsProduction(env) && !HasSecret(env)
    ensures AuthenticateToken(env, verify, header, cookie).Unauthorized?
  {
  }

  /**
   * The admin routes' chain `authenticateToken`, then `requireAdmin`: it
   * reaches the handler exactly when the token verifies to an ADMIN user.
   */
  lemma {:induction false} AdminChain(env: Env, verify: (string, string) -> Option<Payload>, header: Option<string>, cookie: Option<string>)
    ensures var a := AuthenticateToken(env, verify, header, cookie);
      (a.Authenticated? && RoleCheck.RequireAdmin(Some(a.user)) == RoleCheck.Pass)
      <==> ExtractToken(header, cookie).Some?
           && VerifyToken(env, verify, ExtractToken(header, cookie).value).Ok?
           && VerifyToken(env, verify, ExtractToken(header, cookie).value).value.role == "ADMIN"
  {
  }
}
