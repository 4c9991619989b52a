/** The last two handlers of the server: unknown routes and thrown errors. */
module ErrorHandlers {
  import opened Wrappers
  import opened JsValue
  import opened AppErrors

  const NotFoundMessage: string := "요청한 리소스를 찾을 수 없습니다."
  const ServerErrorMessage: string := "서버 내부 오류가 발생했습니다."
  const UnknownError: string := "Unknown error"

  /** What a handler may catch. */
  datatype Thrown =
    | ThrownAppError(e: AppError)
    | ThrownError(message: string)
    | ThrownString(s: string)
    | ThrownValue(v: Value)

  datatype HttpReply = HttpReply(status: int, body: Value)

  function NotFoundHandler(): (r: HttpReply)
    ensures r.status == 404 && Get(r.body, "success") == Bool(false)
    ensures Get(r.body, "message") == Str(NotFoundMessage)
  {
    HttpReply(404, Obj(map["success" := Bool(false), "message" := Str(NotFoundMessage)]))
  }

  /** The diagnostic text: the message of an `Error`, a thrown string itself, anything else "Unknown error". */
  function Detail(err: Thrown): string {
    match err
    case ThrownAppError(e) => e.message
    case ThrownError(m) => m
    case ThrownString(s) => s
    case ThrownValue(_) => UnknownError
  }

  /**
   * `errorHandler`; `None` when the headers are already sent. The `error`
   * key holds `undefined` outside development, which the JSON reply omits.
   */
  function ErrorHandler(err: Thrown, headersSent: bool, nodeEnv: Option<string>): Option<HttpReply> {
    if headersSent then None
    else if err.ThrownAppError? then Some(HttpReply(err.e.status, err.e.body))
    else
      var fields := map["success" := Bool(false), "message" := Str(ServerErrorMessage)];
      Some(HttpReply(500, Obj(if nodeEnv == Some("development") then fields["error" := Str(Detail(err))] else fields)))
  }

  /** Once headers are sent nothing is written; an AppError is answered with exactly its status and body. */
  lemma {:induction false} AppErrorPassesThrough(err: Thrown, headersSent: bool, nodeEnv: Option<string>)
    ensures headersSent ==> ErrorHandler(err, headersSent, nodeEnv).None?
    ensures !headersSent && err.ThrownAppError? ==>
      ErrorHandler(err, headersSent, nodeEnv) == Some(HttpReply(err.e.status, err.e.body))
  {
  }

  /**
   * Any other error gives 500, success false and the fixed message; the
   * `error` detail is present exactly in development, and then it is the
   * Error's message, the thrown string, or "Unknown error".
   */
  lemma {:induction false} OtherErrorsAre500(err: Thrown, nodeEnv: Option<string>)
    requires !err.ThrownAppError?
    ensures var r := ErrorHandler(err, false, nodeEnv).value;
      r.status == 500 && Get(r.body, "success") == Bool(false) && Get(r.body, "message") == Str(ServerErrorMessage)
      && (HasKey(r.body, "error") <==> nodeEnv == Some("development"))
      && (nodeEnv == Some("development") ==> Get(r.body, "error") == Str(Detail(err)))
    ensures err.ThrownError? ==> Detail(err) == err.message
    ensures err.ThrownString? ==> Detail(err) == err.s
    ensures err.ThrownValue? ==> Detail(err) == UnknownError
  {
  }

  /** A thrown AppError built with a message keeps its own body; the body decides the reply, not the message. */
  lemma {:induction false} AppErrorReply(status: int, body: Value, message: Option<string>, nodeEnv: Option<string>)
    ensures ErrorHandler(ThrownAppError(NewAppError(status, body, message)), false, nodeEnv) == Some(HttpReply(status, body))
  {
  }
}
