/** `AppError`: an error that carries the HTTP status and JSON body to answer with. */
module AppErrors {
  import opened Wrappers
  import opened JsValue

  datatype AppError = AppError(name: string, message: string, status: int, body: Value)

  const DefaultMessage: string := "AppError"

  /** `typeof body === 'object' && body !== null && 'message' in body`. */
  predicate BodyHasMessage(body: Value) {
    IsObject(body) && HasKey(body, "message")
  }

  /** `new AppError(status, body, message?)`. */
  function NewAppError(status: int, body: Value, message: Option<string>): AppError {
    AppError("AppError",
      if message.Some? then message.value
      else if BodyHasMessage(body) then ToJsString(Get(body, "message"))
      else DefaultMessage,
      status, body)
  }

  /**
   * The message is the explicit argument when there is one (even ""), else
   * `String(body.message)` when the body is an object with that key, else
   * "AppError"; name, status and body are stored as given.
   */
  lemma {:induction false} MessageDerivation(status: int, body: Value, message: Option<string>)
    ensures message.Some? ==> NewAppError(status, body, message).message == message.value
    ensures message.None? && BodyHasMessage(body) ==> NewAppError(status, body, message).message == ToJsString(body.fields["message"])
    ensures message.None? && !BodyHasMessage(body) ==> NewAppError(status, body, message).message == DefaultMessage
    ensures NewAppError(status, body, message).name == "AppError"
    ensures NewAppError(status, body, message).status == status && NewAppError(status, body, message).body == body
  {
  }

  /** Typical bodies: a string message is taken as is, a numeric one in decimal, and `null`, arrays and strings give the default. */
  lemma {:induction false} MessageExamples(s: string, n: nat)
    ensures NewAppError(400, Obj(map["message" := Str(s)]), None).message == s
    ensures NewAppError(400, Obj(map["message" := Num(n)]), None).message == IntToString(n)
    ensures NewAppError(400, Obj(map["message" := Null]), None).message == "null"
    ensures NewAppError(400, Null, None).message == DefaultMessage
    ensures NewAppError(400, Str(s), None).message == DefaultMessage
    ensures NewAppError(400, Arr([]), None).message == DefaultMessage
  {
    assert Get(Obj(map["message" := Str(s)]), "message") == Str(s);
    assert Get(Obj(map["message" := Num(n)]), "message") == Num(n);
    assert Get(Obj(map["message" := Null]), "message") == Null;
  }
}
