/** The request schemas of the administration routes. Well-formed e-mail is a parameter. */
module AdminSchemas {
  import opened JsValue
  import opened ZodFields

  const Actions: seq<string> := ["approve", "reject"]
  const Roles: seq<string> := ["USER", "ADMIN"]
  const Statuses: seq<string> := ["ACTIVE", "REJECTED", "PENDING"]

  predicate ApproveUser(b: Value, isEmail: string -> bool) {
    b.Obj? && Email(Get(b, "email"), isEmail) && EnumOf(Get(b, "action"), Actions)
  }

  predicate UpdateUserRole(b: Value, isEmail: string -> bool) {
    b.Obj? && Email(Get(b, "email"), isEmail) && EnumOf(Get(b, "role"), Roles)
  }

  predicate UpdateUserStatus(b: Value, isEmail: string -> bool) {
    b.Obj? && Email(Get(b, "email"), isEmail) && EnumOf(Get(b, "status"), Statuses)
  }

  predicate ResetPassword(b: Value, isEmail: string -> bool) {
    b.Obj? && Email(Get(b, "email"), isEmail) && MinString(Get(b, "newPassword"), 6)
  }

  /** The body naming an e-mail address and one more string field. */
  function Request(email: string, key: string, value: string): Value
    requires key != "email"
  {
    Obj(map["email" := Str(email), key := Str(value)])
  }

  /**
   * For a well-formed address, each admin body is accepted exactly when its
   * second field is one of the listed values (or, for a reset, six or more characters).
   */
  lemma {:induction false} AdminExactly(email: string, value: string, isEmail: string -> bool)
    requires isEmail(email)
    ensures ApproveUser(Request(email, "action", value), isEmail) <==> value == "approve" || value == "reject"
    ensures UpdateUserRole(Request(email, "role", value), isEmail) <==> value == "USER" || value == "ADMIN"
    ensures UpdateUserStatus(Request(email, "status", value), isEmail) <==>
      value == "ACTIVE" || value == "REJECTED" || value == "PENDING"
    ensures ResetPassword(Request(email, "newPassword", value), isEmail) <==> |value| >= 6
  {
    assert Get(Request(email, "action", value), "action") == Str(value);
    assert Get(Request(email, "role", value), "role") == Str(value);
    assert Get(Request(email, "status", value), "status") == Str(value);
    assert Get(Request(email, "newPassword", value), "newPassword") == Str(value);
    assert Get(Request(email, "action", value), "email") == Str(email);
    assert Get(Request(email, "role", value), "email") == Str(email);
    assert Get(Request(email, "status", value), "email") == Str(email);
    assert Get(Request(email, "newPassword", value), "email") == Str(email);
  }

  /** An ill-formed address fails every admin body. */
  lemma {:induction false} AdminNeedsEmail(b: Value, isEmail: string -> bool)
    requires !(Get(b, "email").Str? && isEmail(Get(b, "email").s))
    ensures !ApproveUser(b, isEmail) && !UpdateUserRole(b, isEmail)
    ensures !UpdateUserStatus(b, isEmail) && !ResetPassword(b, isEmail)
  {
  }
}
