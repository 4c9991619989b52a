/**
 * The CORS policy of the API server: the allow-list built from two fixed
 * origins and the environment, and the per-request origin test. URL parsing
 * (`new URL(origin).origin`) is a parameter that may fail.
 */
module Cors {
  import opened Wrappers
  import opened JsString

  const LocalOrigin: string := "http://localhost:5173"
  const ProductionOrigin: string := "https://tmsv2-production.up.railway.app"
  const CorsRejection: string := "Not allowed by CORS"

  datatype CorsEnv = CorsEnv(frontendUrl: Option<string>, corsAllowedOrigins: Option<string>, allowVercelPreview: Option<string>)

  /** `s.replace(/\/+$/, '')`. */
  function StripTrailingSlashes(s: string): (r: string)
    ensures |r| <= |s| && r == s[..|r|]
    ensures r == [] || r[|r| - 1] != '/'
    ensures forall i :: |r| <= i < |s| ==> s[i] == '/'
  {
    if s != [] && s[|s| - 1] == '/' then StripTrailingSlashes(s[..|s| - 1]) else s
  }

  /** `CORS_ALLOWED_ORIGINS?.split(',').map(trim).filter(Boolean) ?? []`, over the pieces. */
  function TrimmedNonEmpty(pieces: seq<string>): (r: seq<string>)
    ensures forall e :: e in r ==> e != "" && exists p :: p in pieces && e == Trim(p)
    ensures forall p :: p in pieces && Trim(p) != "" ==> Trim(p) in r
  {
    if pieces == [] then []
    else (if Trim(pieces[0]) != "" then [Trim(pieces[0])] else []) + TrimmedNonEmpty(pieces[1..])
  }

  function ExtraOrigins(env: CorsEnv): seq<string> {
    if env.corsAllowedOrigins.Some? then TrimmedNonEmpty(Split(env.corsAllowedOrigins.value, ',')) else []
  }

  /** The candidate entries before `.filter(Boolean)`; a missing FRONTEND_URL reads as "". */
  function Candidates(env: CorsEnv): seq<string> {
    [LocalOrigin, ProductionOrigin, if env.frontendUrl.Some? then env.frontendUrl.value else ""] + ExtraOrigins(env)
  }

  /** `.filter(Boolean).map(normalize)`. */
  function Normalise(cs: seq<string>): (r: seq<string>)
    ensures forall c :: c in cs && c != "" ==> StripTrailingSlashes(c) in r
    ensures forall e :: e in r ==> exists c :: c in cs && c != "" && e == StripTrailingSlashes(c)
  {
    if cs == [] then []
    else
      var rest := Normalise(cs[1..]);
      assert forall c :: c in cs ==> c == cs[0] || c in cs[1..];
      var r := (if cs[0] != "" then [StripTrailingSlashes(cs[0])] else []) + rest;
      forall e | e in r ensures exists c :: c in cs && c != "" && e == StripTrailingSlashes(c) {
        if e in rest {
          var c :| c in cs[1..] && c != "" && e == StripTrailingSlashes(c);
          assert c in cs;
        } else {
          assert cs[0] in cs && cs[0] != "" && e == StripTrailingSlashes(cs[0]);
        }
      }
      r
  }

  function AllowedOrigins(env: CorsEnv): seq<string> {
    Normalise(Candidates(env))
  }

  /** `String(CORS_ALLOW_VERCEL_PREVIEW ?? '').toLowerCase() === 'true'`. */
  predicate AllowVercelPreview(env: CorsEnv) {
    env.allowVercelPreview.Some? && ToLower(env.allowVercelPreview.value) == "true"
  }

  /** The origin compared against the list: the parsed URL's origin, or the string itself when parsing fails. */
  function Effective(origin: string, urlOrigin: string -> Option<string>): string {
    if urlOrigin(origin).Some? then urlOrigin(origin).value else origin
  }

  /** `isOriginAllowed`, with the allow-list test as written: equality or mere prefix. */
  predicate IsOriginAllowed(env: CorsEnv, urlOrigin: string -> Option<string>, origin: Option<string>) {
    origin.None? || origin.value == ""
    || (exists a :: a in AllowedOrigins(env) && (Effective(origin.value, urlOrigin) == a || StartsWith(Effective(origin.value, urlOrigin), a)))
    || (AllowVercelPreview(env) && EndsWith(Effective(origin.value, urlOrigin), ".vercel.app"))
  }

  /** The origin test with an exact allow-list match. */
  predicate IsOriginAllowedExact(env: CorsEnv, urlOrigin: string -> Option<string>, origin: Option<string>) {
    origin.None? || origin.value == ""
    || Effective(origin.value, urlOrigin) in AllowedOrigins(env)
    || (AllowVercelPreview(env) && EndsWith(Effective(origin.value, urlOrigin), ".vercel.app"))
  }

  datatype CorsVerdict = Allow | Reject(message: string)

  /** The `origin` callback handed to `cors`. */
  function CorsCallback(env: CorsEnv, urlOrigin: string -> Option<string>, origin: Option<string>): CorsVerdict {
    if IsOriginAllowed(env, urlOrigin, origin) then Allow else Reject(CorsRejection)
  }

  /** The callback built on the exact-match origin test. */
  function ExactCorsCallback(env: CorsEnv, urlOrigin: string -> Option<string>, origin: Option<string>): CorsVerdict {
    if IsOriginAllowedExact(env, urlOrigin, origin) then Allow else Reject(CorsRejection)
  }

  /** The two fixed origins are always listed, and no listed entry ends in a slash. */
  lemma {:induction false} AllowListShape(env: CorsEnv)
    ensures LocalOrigin in AllowedOrigins(env) && ProductionOrigin in AllowedOrigins(env)
    ensures forall e :: e in AllowedOrigins(env) ==> e == [] || e[|e| - 1] != '/'
  {
    assert LocalOrigin in Candidates(env) && LocalOrigin != "";
    assert StripTrailingSlashes(LocalOrigin) == LocalOrigin;
    assert ProductionOrigin in Candidates(env) && ProductionOrigin != "";
    assert StripTrailingSlashes(ProductionOrigin) == ProductionOrigin;
  }

  /** FRONTEND_URL is listed without its trailing slashes, and each non-blank comma piece trimmed. */
  lemma {:induction false} AllowListSources(env: CorsEnv)
    ensures env.frontendUrl.Some? && env.frontendUrl.value != "" ==> StripTrailingSlashes(env.frontendUrl.value) in AllowedOrigins(env)
    ensures env.corsAllowedOrigins.Some? ==> forall p :: p in Split(env.corsAllowedOrigins.value, ',') && Trim(p) != "" ==>
      StripTrailingSlashes(Trim(p)) in AllowedOrigins(env)
  {
    if env.frontendUrl.Some? && env.frontendUrl.value != "" {
      assert env.frontendUrl.value in Candidates(env);
    }
    if env.corsAllowedOrigins.Some? {
      forall p | p in Split(env.corsAllowedOrigins.value, ',') && Trim(p) != ""
        ensures StripTrailingSlashes(Trim(p)) in AllowedOrigins(env)
      {
        assert Trim(p) in ExtraOrigins(env);
        assert Trim(p) in Candidates(env);
      }
    }
  }

  /** A missing or empty Origin header is always allowed. */
  lemma {:induction false} NoOriginAllowed(env: CorsEnv, urlOrigin: string -> Option<string>)
    ensures CorsCallback(env, urlOrigin, None) == Allow
    ensures CorsCallback(env, urlOrigin, Some("")) == Allow
  {
  }

  /** An entry made only of slashes normalises to "" and then every origin passes. */
  lemma {:induction false} SlashOnlyEntryAdmitsAll(env: CorsEnv, urlOrigin: string -> Option<string>, origin: Option<string>)
    requires env.frontendUrl == Some("/")
    ensures CorsCallback(env, urlOrigin, origin) == Allow
  {
    assert StripTrailingSlashes("/") == "";
    assert "/" in Candidates(env);
    assert "" in AllowedOrigins(env);
    if origin.Some? && origin.value != "" {
      assert StartsWith(Effective(origin.value, urlOrigin), "");
    }
  }

  /** The Vercel rule admits exactly the `.vercel.app` origins, and only when the flag reads "true" in any case. */
  lemma {:induction false} VercelPreviews(env: CorsEnv, urlOrigin: string -> Option<string>, origin: string)
    requires origin != "" && EndsWith(Effective(origin, urlOrigin), ".vercel.app")
    ensures AllowVercelPreview(env) ==> CorsCallback(env, urlOrigin, Some(origin)) == Allow
    ensures AllowVercelPreview(CorsEnv(None, None, Some("TRUE")))
    ensures !AllowVercelPreview(CorsEnv(None, None, Some("1")))
  {
    assert ToLower("TRUE") == "true";
  }

  /** An origin that is not listed, extends no listed entry and is no admitted preview is refused. */
  lemma {:induction false} OthersRejected(env: CorsEnv, urlOrigin: string -> Option<string>, origin: string)
    requires origin != ""
    requires forall a :: a in AllowedOrigins(env) ==> !StartsWith(Effective(origin, urlOrigin), a)
    requires !(AllowVercelPreview(env) && EndsWith(Effective(origin, urlOrigin), ".vercel.app"))
    ensures CorsCallback(env, urlOrigin, Some(origin)) == Reject(CorsRejection)
  {
    forall a | a in AllowedOrigins(env) ensures Effective(origin, urlOrigin) != a {
      assert StartsWith(a, a);
    }
  }

  /** A host name that begins with the local development origin. */
  const Lookalike: string := LocalOrigin + ".attacker.example"

  /** With no environment set, exactly the two fixed origins are listed. */
  lemma {:induction false} DefaultAllowList()
    ensures AllowedOrigins(CorsEnv(None, None, None)) == [LocalOrigin, ProductionOrigin]
  {
    var env := CorsEnv(None, None, None);
    assert Candidates(env) == [LocalOrigin, ProductionOrigin, ""];
    assert StripTrailingSlashes(LocalOrigin) == LocalOrigin;
    assert StripTrailingSlashes(ProductionOrigin) == ProductionOrigin;
    assert Candidates(env)[1..] == [ProductionOrigin, ""];
    assert Candidates(env)[1..][1..] == [""];
  }

  /** A look-alike a browser does send: another local server, on port 51730. */
  const PortLookalike: string := LocalOrigin + "0"

  /** A look-alike of the production origin under a host the attacker controls. */
  const HostLookalike: string := ProductionOrigin + ".attacker.example"

  /** What the URL parser does with `o`: fail, or give `o` back as its own origin. */
  predicate ParsesToItself(urlOrigin: string -> Option<string>, o: string) {
    urlOrigin(o).None? || urlOrigin(o) == Some(o)
  }

  /** Any origin that extends a listed entry passes the test as written. */
  lemma {:induction false} ExtensionAdmitted(env: CorsEnv, urlOrigin: string -> Option<string>, o: string, entry: string)
    requires o != "" && ParsesToItself(urlOrigin, o)
    requires entry in AllowedOrigins(env) && StartsWith(o, entry)
    ensures CorsCallback(env, urlOrigin, Some(o)) == Allow
  {
    assert Effective(o, urlOrigin) == o;
  }

  /**
   * With prefix matching, a host that merely begins with a listed origin is
   * accepted, whatever the environment: whether the URL parser rejects the
   * origin (a port that is not a number) or gives it back as its own.
   */
  lemma {:induction false} PrefixAdmitsLookalike(env: CorsEnv, urlOrigin: string -> Option<string>)
    requires ParsesToItself(urlOrigin, Lookalike)
    requires ParsesToItself(urlOrigin, PortLookalike)
    requires ParsesToItself(urlOrigin, HostLookalike)
    ensures CorsCallback(env, urlOrigin, Some(Lookalike)) == Allow
    ensures CorsCallback(env, urlOrigin, Some(PortLookalike)) == Allow
    ensures CorsCallback(env, urlOrigin, Some(HostLookalike)) == Allow
  {
    AllowListShape(env);
    assert StartsWith(Lookalike, LocalOrigin);
    ExtensionAdmitted(env, urlOrigin, Lookalike, LocalOrigin);
    assert StartsWith(PortLookalike, LocalOrigin);
    ExtensionAdmitted(env, urlOrigin, PortLookalike, LocalOrigin);
    assert StartsWith(HostLookalike, ProductionOrigin);
    ExtensionAdmitted(env, urlOrigin, HostLookalike, ProductionOrigin);
  }

  /** The look-alikes are neither fixed origin. */
  lemma {:induction false} LookalikeUnlisted()
    ensures Lookalike !in [LocalOrigin, ProductionOrigin]
    ensures PortLookalike !in [LocalOrigin, ProductionOrigin]
    ensures HostLookalike !in [LocalOrigin, ProductionOrigin]
  {
    assert |Lookalike| == |LocalOrigin| + 17;
    assert |PortLookalike| == |LocalOrigin| + 1;
    assert |HostLookalike| == |ProductionOrigin| + 17;
    assert Lookalike[4] == PortLookalike[4] == LocalOrigin[4] == ':';
    assert ProductionOrigin[4] == 's' && HostLookalike[4] == 's';
  }

  /** Under the default environment the exact test refuses any origin other than the two fixed ones and previews. */
  lemma {:induction false} ExactRefusesUnlisted(urlOrigin: string -> Option<string>, o: string)
    requires o != "" && ParsesToItself(urlOrigin, o)
    requires o !in [LocalOrigin, ProductionOrigin]
    ensures ExactCorsCallback(CorsEnv(None, None, None), urlOrigin, Some(o)) == Reject(CorsRejection)
  {
    DefaultAllowList();
    assert Effective(o, urlOrigin) == o;
    assert !AllowVercelPreview(CorsEnv(None, None, None));
  }

  /** The exact test refuses the look-alikes under the default environment. */
  lemma {:induction false} ExactRefusesLookalike(urlOrigin: string -> Option<string>)
    requires ParsesToItself(urlOrigin, Lookalike)
    requires ParsesToItself(urlOrigin, PortLookalike)
    requires ParsesToItself(urlOrigin, HostLookalike)
    ensures ExactCorsCallback(CorsEnv(None, None, None), urlOrigin, Some(Lookalike)) == Reject(CorsRejection)
    ensures ExactCorsCallback(CorsEnv(None, None, None), urlOrigin, Some(PortLookalike)) == Reject(CorsRejection)
    ensures ExactCorsCallback(CorsEnv(None, None, None), urlOrigin, Some(HostLookalike)) == Reject(CorsRejection)
  {
    LookalikeUnlisted();
    ExactRefusesUnlisted(urlOrigin, Lookalike);
    ExactRefusesUnlisted(urlOrigin, PortLookalike);
    ExactRefusesUnlisted(urlOrigin, HostLookalike);
  }

  /**
   * The exact test admits a non-empty origin only if its effective origin is
   * listed or is an admitted preview, and it admits no more than the test as written.
   */
  lemma {:induction false} ExactAdmitsOnlyListed(env: CorsEnv, urlOrigin: string -> Option<string>, origin: string)
    requires origin != ""
    ensures ExactCorsCallback(env, urlOrigin, Some(origin)) == Allow <==>
      Effective(origin, urlOrigin) in AllowedOrigins(env)
      || (AllowVercelPreview(env) && EndsWith(Effective(origin, urlOrigin), ".vercel.app"))
    ensures ExactCorsCallback(env, urlOrigin, Some(origin)) == Allow ==> CorsCallback(env, urlOrigin, Some(origin)) == Allow
  {
  }
}
