/** The request schemas of the authentication routes. Well-formed e-mail is a parameter. */
module AuthSchemas {
  import opened JsValue
  import opened ZodFields

  predicate Register(b: Value, isEmail: string -> bool) {
    b.Obj?
    && Email(Get(b, "email"), isEmail)
    && MinString(Get(b, "password"), 6)
    && MinString(Get(b, "name"), 1)
  }

  predicate Login(b: Value, isEmail: string -> bool) {
    b.Obj? && Email(Get(b, "email"), isEmail) && MinString(Get(b, "password"), 1)
  }

  predicate UpdateProfile(b: Value) {
    b.Obj? && MinString(Get(b, "name"), 1)
  }

  predicate ChangePassword(b: Value) {
    b.Obj? && MinString(Get(b, "currentPassword"), 1) && MinString(Get(b, "newPassword"), 6)
  }

  /** The body of the given credentials. */
  function Credentials(email: string, password: string, name: string): Value {
    Obj(map["email" := Str(email), "password" := Str(password), "name" := Str(name)])
  }

  /**
   * Register takes a well-formed e-mail, a password of at least six
   * characters and a non-empty name, and nothing else decides.
   */
  lemma {:induction false} RegisterExactly(email: string, password: string, name: string, isEmail: string -> bool)
    ensures Register(Credentials(email, password, name), isEmail) <==> isEmail(email) && |password| >= 6 && name != ""
  {
    var b := Credentials(email, password, name);
    assert Get(b, "email") == Str(email) && Get(b, "password") == Str(password) && Get(b, "name") == Str(name);
  }

  /** Login takes any non-empty password, so a password too short to register still logs in. */
  lemma {:induction false} LoginExactly(email: string, password: string, isEmail: string -> bool)
    ensures Login(Obj(map["email" := Str(email), "password" := Str(password)]), isEmail) <==> isEmail(email) && password != ""
    ensures isEmail(email) ==> Login(Obj(map["email" := Str(email), "password" := Str("a")]), isEmail)
  {
    var b := Obj(map["email" := Str(email), "password" := Str(password)]);
    assert Get(b, "email") == Str(email) && Get(b, "password") == Str(password);
    var a := Obj(map["email" := Str(email), "password" := Str("a")]);
    assert Get(a, "email") == Str(email) && Get(a, "password") == Str("a");
  }

  /** A profile update needs a name; a password change needs the current one and a new one of six or more. */
  lemma {:induction false} ProfileAndPassword(b: Value)
    requires b.Obj?
    ensures UpdateProfile(b) <==> Get(b, "name").Str? && Get(b, "name").s != ""
    ensures ChangePassword(b) ==> |Get(b, "newPassword").s| >= 6 && Get(b, "currentPassword").s != ""
    ensures Get(b, "newPassword") == Str("12345") ==> !ChangePassword(b)
  {
  }

  /** Every registrable body also logs in. */
  lemma {:induction false} RegisterImpliesLogin(b: Value, isEmail: string -> bool)
    ensures Register(b, isEmail) ==> Login(b, isEmail)
  {
  }
}
