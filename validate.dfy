/**
 * `validateBody`: run a schema over the request body, then either hand the
 * parsed body on or answer 400 with the schema's messages.
 */
module Validate {
  import opened JsString
  import opened JsValue
  import opened ZodFields
  import PlanSchemas
  import TestCaseSchemas

  /** How `schema.parse` ended: a value, a schema error with its issue messages, or any other throw. */
  datatype ParseOutcome = Parsed(value: Value) | SchemaError(issues: seq<string>) | OtherError

  /** What the middleware does: call `next` with the body in place, or answer. */
  datatype Outcome = Next(body: Value) | Respond(status: int, body: Value)

  const InvalidBody: string := "잘못된 요청 본문입니다."

  /** `{ success: false, message }`. */
  function FailureBody(message: string): Value {
    Obj(map["success" := Bool(false), "message" := Str(message)])
  }

  /** The decision the middleware takes for a parse outcome. */
  function Decide(p: ParseOutcome): (o: Outcome)
    ensures o.Next? <==> p.Parsed?
    ensures o.Next? ==> o.body == p.value
    ensures p.SchemaError? ==> o == Respond(400, FailureBody(Join(p.issues, ", ")))
    ensures p.OtherError? ==> o == Respond(400, FailureBody(InvalidBody))
  {
    match p
    case Parsed(v) => Next(v)
    case SchemaError(issues) => Respond(400, FailureBody(Join(issues, ", ")))
    case OtherError => Respond(400, FailureBody(InvalidBody))
  }

  /** Every call continues or answers 400; no other status is produced. */
  lemma {:induction false} OnlyContinueOr400(p: ParseOutcome)
    ensures Decide(p).Next? || Decide(p).status == 400
    ensures Decide(p).Respond? ==> Get(Decide(p).body, "success") == Bool(false)
  {
    var o := Decide(p);
    if o.Respond? {
      assert Get(o.body, "success") == Bool(false);
    }
  }

  /** The message lists the issue messages in order, each after a ", " that follows the previous one. */
  lemma {:induction false} IssueMessagesInOrder(issues: seq<string>, last: string)
    ensures Decide(SchemaError([last])) == Respond(400, FailureBody(last))
    ensures issues != [] ==>
      Decide(SchemaError(issues + [last])).body.fields["message"]
      == Str(Join(issues, ", ") + ", " + last)
  {
    JoinAppend([], last, ", ");
    JoinAppend(issues, last, ", ");
  }

  /** `schema.parse(body)` for a schema accepting `accepts` with declared keys `keys`. */
  function SchemaParse(accepts: bool, b: Value, keys: set<string>, issues: seq<string>): (p: ParseOutcome)
    ensures p.Parsed? <==> accepts && b.Obj?
  {
    if accepts && b.Obj? then Parsed(Strip(b, keys)) else SchemaError(issues)
  }

  /** A plan route only ever hands its controller a body its schema accepts. */
  lemma {:induction false} PlanRoutesGetValidBodies(b: Value, issues: seq<string>)
    ensures var o := Decide(SchemaParse(PlanSchemas.CreatePlan(b), b, PlanSchemas.CreatePlanKeys, issues));
      o.Next? ==> PlanSchemas.CreatePlan(o.body)
    ensures var o := Decide(SchemaParse(PlanSchemas.BulkUpdatePlanItems(b), b, PlanSchemas.BulkUpdatePlanItemsKeys, issues));
      o.Next? ==> PlanSchemas.BulkUpdatePlanItems(o.body)
  {
    if b.Obj? {
      PlanSchemas.ParsedBodiesStayValid(b);
    }
  }

  /** The test-case create and update routes only hand on bodies their schemas accept. */
  lemma {:induction false} TestCaseRoutesGetValidBodies(b: Value, issues: seq<string>)
    ensures var o := Decide(SchemaParse(TestCaseSchemas.CreateTestCase(b), b, TestCaseSchemas.CreateTestCaseKeys, issues));
      o.Next? ==> TestCaseSchemas.CreateTestCase(o.body)
    ensures var o := Decide(SchemaParse(TestCaseSchemas.UpdateTestCase(b), b, TestCaseSchemas.UpdateTestCaseKeys, issues));
      o.Next? ==> TestCaseSchemas.UpdateTestCase(o.body)
  {
    if b.Obj? {
      TestCaseSchemas.ParsedBodiesStayValid(b);
    }
  }

  /** The request whose `body` the middleware overwrites. */
  class Request {
    var body: Value

    constructor (body: Value)
      ensures this.body == body
    {
      this.body := body;
    }

    /** Runs the middleware: on success the body is replaced and no response is written. */
    method ValidateBody(p: ParseOutcome) returns (response: Outcome)
      modifies this
      ensures response == Decide(p)
      ensures p.Parsed? ==> body == p.value
      ensures !p.Parsed? ==> body == old(body)
    {
      response := Decide(p);
      if p.Parsed? {
        body := p.value;
      }
    }
  }
}
