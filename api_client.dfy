/**
 * The browser's API client: the base URL choice, the `document.cookie`
 * lookup, and the request interceptor that echoes the `csrf_token` cookie
 * in `X-CSRF-Token` on unsafe requests. `decodeURIComponent` is a parameter.
 */
module ApiClient {
  import opened Wrappers
  import opened JsString
  import Csrf

  const ProductionApi: string := "https://tmsv2-production.up.railway.app/api"
  const LocalApi: string := "http://localhost:3001/api"
  const CsrfHeader: string := "X-CSRF-Token"

  /** `getBaseURL`: a non-empty `VITE_API_URL`, else the production or local address. */
  function BaseUrl(viteApiUrl: Option<string>, prod: bool): (r: string)
    ensures viteApiUrl.Some? && viteApiUrl.value != "" ==> r == viteApiUrl.value
    ensures !(viteApiUrl.Some? && viteApiUrl.value != "") ==> r == (if prod then ProductionApi else LocalApi)
  {
    if viteApiUrl.Some? && viteApiUrl.value != "" then viteApiUrl.value
    else if prod then ProductionApi
    else LocalApi
  }

  /** The longest prefix holding no ';', the part `[^;]+` consumes. */
  function Run(s: string): (r: string)
    ensures ';' !in r && StartsWith(s, r)
    ensures |r| < |s| ==> s[|r|] == ';'
  {
    if s == [] || s[0] == ';' then [] else [s[0]] + Run(s[1..])
  }

  /**
   * The value captured by `(^| )name=([^;]+)` when the match starts at
   * position `p`: the start-of-string branch first, then the space branch.
   */
  function MatchAt(c: string, name: string, p: nat): Option<string>
    requires p <= |c|
  {
    var key := name + "=";
    if p == 0 && StartsWith(c, key) && Run(c[|key|..]) != [] then Some(Run(c[|key|..]))
    else if p < |c| && c[p] == ' ' && StartsWith(c[p + 1..], key) && Run(c[p + 1 + |key|..]) != []
    then Some(Run(c[p + 1 + |key|..]))
    else None
  }

  /** The leftmost position from `p` on where the pattern matches. */
  function FirstMatch(c: string, name: string, p: nat): (r: Option<nat>)
    requires p <= |c|
    ensures r.Some? ==>
      p <= r.value <= |c| && MatchAt(c, name, r.value).Some? && forall q :: p <= q < r.value ==> MatchAt(c, name, q).None?
    ensures r.None? ==> forall q :: p <= q <= |c| ==> MatchAt(c, name, q).None?
    decreases |c| - p
  {
    if MatchAt(c, name, p).Some? then Some(p)
    else if p == |c| then None
    else FirstMatch(c, name, p + 1)
  }

  /** `getCookie`: the decoded value of the leftmost match, `null` without one. */
  function GetCookie(c: string, name: string, decode: string -> string): Option<string> {
    var m := FirstMatch(c, name, 0);
    if m.None? then None else Some(decode(MatchAt(c, name, m.value).value))
  }

  /**
   * A cookie written as `name=value` at the start of the cookie string or
   * after a space is found, its value running up to the next ';', provided
   * no match starts earlier.
   */
  lemma {:induction false} CookieFound(pre: string, name: string, v: string, post: string, decode: string -> string)
    requires ' ' !in name
    requires pre == [] || pre[|pre| - 1] == ' '
    requires v != [] && ';' !in v && (post == [] || post[0] == ';')
    requires forall q :: 0 <= q < |pre| - 1 ==> MatchAt(pre + name + "=" + v + post, name, q).None?
    ensures GetCookie(pre + name + "=" + v + post, name, decode) == Some(decode(v))
  {
    var c := pre + name + "=" + v + post;
    var p: nat := if pre == [] then 0 else |pre| - 1;
    CookieMatchesAt(pre, name, v, post);
    Leftmost(c, name, p);
  }

  lemma {:induction false} CookieMatchesAt(pre: string, name: string, v: string, post: string)
    requires ' ' !in name
    requires pre == [] || pre[|pre| - 1] == ' '
    requires v != [] && ';' !in v && (post == [] || post[0] == ';')
    ensures MatchAt(pre + name + "=" + v + post, name, if pre == [] then 0 else |pre| - 1) == Some(v)
  {
    if pre == [] {
      MatchAtStart(name, v, post);
      assert pre + name + "=" + v + post == name + "=" + v + post;
    } else {
      var pre0 := pre[..|pre| - 1];
      MatchAtSpace(pre0, name, v, post);
      assert pre == pre0 + " ";
      assert pre + name + "=" + v + post == pre0 + " " + name + "=" + v + post;
    }
  }

  /** A match with none before it is the one `getCookie` reads. */
  lemma {:induction false} Leftmost(c: string, name: string, p: nat)
    requires p <= |c| && MatchAt(c, name, p).Some?
    requires forall q :: 0 <= q < p ==> MatchAt(c, name, q).None?
    ensures FirstMatch(c, name, 0) == Some(p)
  {
  }

  lemma {:induction false} MatchAtStart(name: string, v: string, post: string)
    requires v != [] && ';' !in v && (post == [] || post[0] == ';')
    ensures MatchAt(name + "=" + v + post, name, 0) == Some(v)
  {
    var key := name + "=";
    var c := name + "=" + v + post;
    RunStops(v, post);
    assert c == key + (v + post);
    assert StartsWith(c, key);
    assert c[|key|..] == v + post;
  }

  lemma {:induction false} MatchAtSpace(pre: string, name: string, v: string, post: string)
    requires ' ' !in name
    requires v != [] && ';' !in v && (post == [] || post[0] == ';')
    ensures MatchAt(pre + " " + name + "=" + v + post, name, |pre|) == Some(v)
  {
    var key := name + "=";
    var c := pre + " " + name + "=" + v + post;
    var a := pre + " ";
    var b := key + (v + post);
    var p := |pre|;
    RunStops(v, post);
    assert c == a + b;
    assert c[p] == a[p] == ' ';
    assert c[p + 1..] == b;
    assert b[|key|..] == v + post;
    assert StartsWith(c[p + 1..], key);
    if p == 0 {
      assert key[0] != ' ' by { assert name == [] || key[0] == name[0]; }
      assert !StartsWith(c, key) by { assert c[0] == ' '; }
    }
  }

  lemma {:induction false} RunStops(v: string, post: string)
    requires ';' !in v && (post == [] || post[0] == ';')
    ensures Run(v + post) == v
    decreases |v|
  {
    if v != [] {
      assert (v + post)[1..] == v[1..] + post;
      RunStops(v[1..], post);
    }
  }

  /** A name that occurs nowhere followed by '=' is never found. */
  lemma {:induction false} AbsentCookie(c: string, name: string, decode: string -> string)
    requires !Contains(c, name + "=")
    ensures GetCookie(c, name, decode) == None
  {
    var key := name + "=";
    forall q | 0 <= q <= |c| ensures MatchAt(c, name, q).None? {
      if q < |c| && c[q] == ' ' && StartsWith(c[q + 1..], key) {
        assert c[q + 1..q + 1 + |key|] == key;
        ContainsAt(c, key, q + 1);
      }
    }
  }

  /**
   * Without spaces only the start of the cookie string can match, so a name
   * glued to the end of another (`xcsrf_token=…`) is not found, and an empty
   * value after `name=` is not found either.
   */
  lemma {:induction false} NoSpaceOnlyStart(c: string, name: string, decode: string -> string)
    requires ' ' !in c
    ensures StartsWith(c, name + "=") && Run(c[|name| + 1..]) != [] ==> GetCookie(c, name, decode) == Some(decode(Run(c[|name| + 1..])))
    ensures !(StartsWith(c, name + "=") && Run(c[|name| + 1..]) != []) ==> GetCookie(c, name, decode) == None
  {
    forall q | 1 <= q <= |c| ensures MatchAt(c, name, q).None? {
      if q < |c| {
        assert c[q] in c;
      }
    }
    if StartsWith(c, name + "=") && Run(c[|name| + 1..]) != [] {
      assert MatchAt(c, name, 0).Some?;
    } else {
      assert MatchAt(c, name, 0).None?;
    }
  }

  /** `(config.method || 'get').toUpperCase()`. */
  function MethodOf(m: Option<string>): string {
    ToUpper(if m.Some? && m.value != "" then m.value else "get")
  }

  predicate IsSafe(m: Option<string>) {
    MethodOf(m) in {"GET", "HEAD", "OPTIONS"}
  }

  /** The headers after the interceptor: only an unsafe request with a non-empty cookie value gets the header. */
  function Intercepted(m: Option<string>, headers: Option<map<string, string>>, cookie: string, decode: string -> string): Option<map<string, string>> {
    var csrf := GetCookie(cookie, Csrf.CsrfCookie, decode);
    if !IsSafe(m) && csrf.Some? && csrf.value != "" then
      Some((if headers.Some? then headers.value else map[])[CsrfHeader := csrf.value])
    else headers
  }

  /**
   * Safe methods (a missing or empty method counts as GET) and requests
   * without the cookie keep their headers; otherwise `X-CSRF-Token` holds the
   * cookie value and every other header is kept.
   */
  lemma {:induction false} InterceptorEffect(m: Option<string>, headers: Option<map<string, string>>, cookie: string, decode: string -> string)
    ensures IsSafe(None) && IsSafe(Some(""))
    ensures var csrf := GetCookie(cookie, Csrf.CsrfCookie, decode);
      (IsSafe(m) || csrf.None? || csrf.value == "") ==> Intercepted(m, headers, cookie, decode) == headers
    ensures var csrf := GetCookie(cookie, Csrf.CsrfCookie, decode);
      !IsSafe(m) && csrf.Some? && csrf.value != "" ==>
        var h := Intercepted(m, headers, cookie, decode);
        h.Some? && CsrfHeader in h.value && h.value[CsrfHeader] == csrf.value
        && (forall k :: k != CsrfHeader ==> (k in h.value <==> headers.Some? && k in headers.value))
        && (forall k :: k != CsrfHeader && headers.Some? && k in headers.value ==> h.value[k] == headers.value[k])
  {
    assert ToUpper("get") == "GET";
  }

  /** The client and the server classify methods alike. */
  lemma {:induction false} SafeAgreesWithServer(m: string)
    requires m != ""
    ensures IsSafe(Some(m)) <==> Csrf.IsSafe(m)
  {
  }

  /**
   * The token the server issued, present in the cookie string as
   * `csrf_token=token`, is echoed on the unsafe session request, and the
   * server's check lets that request through.
   */
  lemma {:induction false} EchoedTokenPasses(pre: string, token: string, post: string, m: string, path: string,
                                             cookies: map<string, string>, decode: string -> string)
    requires pre == [] || pre[|pre| - 1] == ' '
    requires forall q :: 0 <= q < |pre| - 1 ==> MatchAt(pre + Csrf.CsrfCookie + "=" + token + post, Csrf.CsrfCookie, q).None?
    requires token != [] && ';' !in token && (post == [] || post[0] == ';')
    requires !IsJsWhitespace(token[0]) && !IsJsWhitespace(token[|token| - 1])
    requires decode(token) == token
    requires m != "" && !IsSafe(Some(m))
    requires Csrf.CsrfCookie in cookies && cookies[Csrf.CsrfCookie] == token
    ensures var cookie := pre + Csrf.CsrfCookie + "=" + token + post;
      var h := Intercepted(Some(m), None, cookie, decode);
      h.Some? && CsrfHeader in h.value
      && var req := Csrf.CsrfRequest(m, path, cookies, None, Some(h.value[CsrfHeader]));
      Csrf.Check(req, Csrf.ComparisonToken(req, "")) == Csrf.Next
  {
    var cookie := pre + Csrf.CsrfCookie + "=" + token + post;
    assert ' ' !in Csrf.CsrfCookie;
    CookieFound(pre, Csrf.CsrfCookie, token, post, decode);
    TrimOfNonBlankEnds(token);
  }

  /** The request configuration the interceptor rewrites. */
  class RequestConfig {
    var httpMethod: Option<string>
    var headers: Option<map<string, string>>

    constructor (m: Option<string>, h: Option<map<string, string>>)
      ensures httpMethod == m && headers == h
    {
      httpMethod := m;
      headers := h;
    }

    /** The request interceptor. */
    method AttachCsrf(cookie: string, decode: string -> string)
      modifies this
      ensures httpMethod == old(httpMethod)
      ensures headers == Intercepted(old(httpMethod), old(headers), cookie, decode)
    {
      var m := MethodOf(httpMethod);
      var isSafe := m == "GET" || m == "HEAD" || m == "OPTIONS";
      if !isSafe {
        var csrf := GetCookie(cookie, Csrf.CsrfCookie, decode);
        if csrf.Some? && csrf.value != "" {
          var h := if headers.Some? then headers.value else map[];
          h := h[CsrfHeader := csrf.value];
          headers := Some(h);
        }
      }
    }
  }
}
