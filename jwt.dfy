/**
 * Token signing and checking around the JWT library: which secret is used,
 * the default lifetime, and how verification failures are reported. The
 * library's own `sign` and `verify` are parameters.
 */
module Jwt {
  import opened Wrappers
  import opened JsString

  /** The environment variables the module reads. */
  datatype Env = Env(jwtSecret: Option<string>, jwtExpiresIn: Option<string>, nodeEnv: Option<string>)

  /** The claims a token carries. */
  datatype Payload = Payload(userId: string, email: string, name: string, role: string, status: string)

  const DevSecret: string := "dev-insecure-jwt-secret"
  const MissingSecret: string := "JWT_SECRET is required in production"
  const InvalidToken: string := "Invalid or expired token"
  const DefaultExpiry: string := "7d"

  predicate IsProduction(env: Env) {
    env.nodeEnv == Some("production")
  }

  /** A secret is usable when it is set and not only whitespace. */
  predicate HasSecret(env: Env) {
    env.jwtSecret.Some? && Trim(env.jwtSecret.value) != ""
  }

  /** `resolveJwtSecret`: the secret as set, the production failure, or the development fallback. */
  function ResolveJwtSecret(env: Env): Result<string, string> {
    if HasSecret(env) then Ok(env.jwtSecret.value)
    else if IsProduction(env) then Err(MissingSecret)
    else Ok(DevSecret)
  }

  /** `JWT_EXPIRES_IN || '7d'`. */
  function ExpiresIn(env: Env): (r: string)
    ensures r != ""
    ensures env.jwtExpiresIn.Some? && env.jwtExpiresIn.value != "" ==> r == env.jwtExpiresIn.value
    ensures env.jwtExpiresIn.None? || env.jwtExpiresIn.value == "" ==> r == DefaultExpiry
  {
    if env.jwtExpiresIn.Some? && env.jwtExpiresIn.value != "" then env.jwtExpiresIn.value else DefaultExpiry
  }

  /** `generateToken`: a missing production secret propagates as it was thrown. */
  function GenerateToken(env: Env, sign: (Payload, string, string) -> string, payload: Payload): Result<string, string> {
    match ResolveJwtSecret(env)
    case Err(e) => Err(e)
    case Ok(secret) => Ok(sign(payload, secret, ExpiresIn(env)))
  }

  /** `verifyToken`: the secret is resolved inside the `try`, so its failure is reported like a bad token. */
  function VerifyToken(env: Env, verify: (string, string) -> Option<Payload>, token: string): Result<Payload, string> {
    match ResolveJwtSecret(env)
    case Err(_) => Err(InvalidToken)
    case Ok(secret) =>
      match verify(token, secret)
      case None => Err(InvalidToken)
      case Some(p) => Ok(p)
  }

  /** Which secret is used: the configured one verbatim (untrimmed), or on failure the fallback or the error. */
  lemma {:induction false} SecretResolution(env: Env)
    ensures HasSecret(env) ==> ResolveJwtSecret(env) == Ok(env.jwtSecret.value)
    ensures !HasSecret(env) && IsProduction(env) ==> ResolveJwtSecret(env) == Err(MissingSecret)
    ensures !HasSecret(env) && !IsProduction(env) ==> ResolveJwtSecret(env) == Ok(DevSecret)
    ensures ResolveJwtSecret(env).Err? <==> !HasSecret(env) && IsProduction(env)
  {
  }

  /** A secret padded with spaces is used with its padding; a whitespace-only one is not a secret. */
  lemma {:induction false} SecretNotTrimmed(core: string, nodeEnv: Option<string>)
    requires core != "" && !IsJsWhitespace(core[0]) && !IsJsWhitespace(core[|core| - 1])
    ensures ResolveJwtSecret(Env(Some(" " + core + " "), None, nodeEnv)) == Ok(" " + core + " ")
    ensures ResolveJwtSecret(Env(Some(" \t"), None, Some("production"))) == Err(MissingSecret)
  {
    var padded := " " + core + " ";
    assert padded[1] == core[0];
    assert !IsBlank(padded);
    assert IsBlank(" \t") by {
      assert forall i :: 0 <= i < |" \t"| ==> IsJsWhitespace(" \t"[i]);
    }
  }

  /**
   * Every verification failure, including a missing production secret, is
   * reported with the same message; verification succeeds exactly when the
   * library accepts the token under the resolved secret.
   */
  lemma {:induction false} VerifyNormalisesErrors(env: Env, verify: (string, string) -> Option<Payload>, token: string)
    ensures VerifyToken(env, verify, token).Err? ==> VerifyToken(env, verify, token).error == InvalidToken
    ensures VerifyToken(env, verify, token).Ok? <==>
      ResolveJwtSecret(env).Ok? && verify(token, ResolveJwtSecret(env).value).Some?
    ensures !HasSecret(env) && IsProduction(env) ==> VerifyToken(env, verify, token) == Err(InvalidToken)
  {
  }

  /** Signing, unlike verifying, surfaces the missing production secret as such. */
  lemma {:induction false} GenerateSurfacesMissingSecret(env: Env, sign: (Payload, string, string) -> string, p: Payload)
    ensures !HasSecret(env) && IsProduction(env) ==> GenerateToken(env, sign, p) == Err(MissingSecret)
    ensures HasSecret(env) ==> GenerateToken(env, sign, p) == Ok(sign(p, env.jwtSecret.value, ExpiresIn(env)))
    ensures env.jwtExpiresIn.None? && !IsProduction(env) && !HasSecret(env) ==>
      GenerateToken(env, sign, p) == Ok(sign(p, DevSecret, DefaultExpiry))
  {
  }
}
