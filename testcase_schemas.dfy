/**
 * The request schemas of the test-case routes, and how a body they accept
 * reaches the test-case controller.
 */
module TestCaseSchemas {
  import opened Wrappers
  import opened JsValue
  import opened ZodFields
  import TestCaseController

  const Priorities: seq<string> := ["LOW", "MEDIUM", "HIGH"]
  const AutomationTypes: seq<string> := ["MANUAL", "AUTOMATED"]

  const CreateTestCaseKeys: set<string> :=
    {"title", "description", "precondition", "steps", "expectedResult", "priority", "automationType", "category", "folderId"}
  const UpdateTestCaseKeys: set<string> :=
    {"title", "description", "precondition", "steps", "expectedResult", "priority", "automationType", "category"}
  const ReorderTestCasesKeys: set<string> := {"orderedIds"}
  const BulkUpdateTestCasesKeys: set<string> := {"ids", "priority", "automationType", "category", "folderId"}
  const BulkDeleteTestCasesKeys: set<string> := {"ids"}
  const MoveTestCasesKeys: set<string> := {"ids", "targetFolderId"}

  /** The free-text fields both create and update accept as optional strings. */
  predicate OptionalTexts(b: Value) {
    OptString(Get(b, "description")) && OptString(Get(b, "precondition"))
    && OptString(Get(b, "steps")) && OptString(Get(b, "expectedResult"))
  }

  predicate CreateTestCase(b: Value) {
    b.Obj?
    && MinString(Get(b, "title"), 1)
    && OptionalTexts(b)
    && OptEnumOf(Get(b, "priority"), Priorities)
    && OptEnumOf(Get(b, "automationType"), AutomationTypes)
    && OptNullString(Get(b, "category"))
    && OptNullString(Get(b, "folderId"))
  }

  predicate UpdateTestCase(b: Value) {
    b.Obj?
    && OptMinString(Get(b, "title"), 1)
    && OptionalTexts(b)
    && OptEnumOf(Get(b, "priority"), Priorities)
    && OptEnumOf(Get(b, "automationType"), AutomationTypes)
    && OptNullString(Get(b, "category"))
  }

  predicate ReorderTestCases(b: Value) {
    b.Obj? && IdList(Get(b, "orderedIds"), 1)
  }

  /** The field shape of the bulk update, before its refinement. */
  predicate BulkUpdateTestCasesShape(b: Value) {
    b.Obj?
    && IdList(Get(b, "ids"), 1)
    && OptEnumOf(Get(b, "priority"), Priorities)
    && OptEnumOf(Get(b, "automationType"), AutomationTypes)
    && OptNullString(Get(b, "category"))
    && OptNullString(Get(b, "folderId"))
  }

  predicate BulkUpdateTestCases(b: Value) {
    BulkUpdateTestCasesShape(b)
    && (Truthy(Get(b, "priority")) || Truthy(Get(b, "automationType"))
        || !Get(b, "category").Undefined? || !Get(b, "folderId").Undefined?)
  }

  predicate BulkDeleteTestCases(b: Value) {
    b.Obj? && IdList(Get(b, "ids"), 1)
  }

  predicate MoveTestCases(b: Value) {
    b.Obj? && IdList(Get(b, "ids"), 1) && OptNullString(Get(b, "targetFolderId"))
  }

  /** A string field as the controller reads it: a string, or absent. */
  function Text(v: Value): (r: Option<string>)
    ensures r.Some? <==> v.Str?
    ensures r.Some? ==> r.value == v.s
  {
    if v.Str? then Some(v.s) else None
  }

  /** The fields createTestCase reads from a request body. */
  function CreateBodyOf(b: Value): TestCaseController.CreateBody {
    TestCaseController.CreateBody(
      Text(Get(b, "title")), Text(Get(b, "description")), Text(Get(b, "precondition")),
      Text(Get(b, "steps")), Text(Get(b, "expectedResult")), Text(Get(b, "priority")),
      Text(Get(b, "folderId")))
  }

  /** The fields updateTestCase reads from a request body (it reads no folder). */
  function UpdateBodyOf(b: Value): TestCaseController.UpdateBody {
    TestCaseController.UpdateBody(
      Text(Get(b, "title")), Text(Get(b, "description")), Text(Get(b, "precondition")),
      Text(Get(b, "steps")), Text(Get(b, "expectedResult")), Text(Get(b, "priority")))
  }

  /**
   * A body the create schema accepts never meets the controller's missing
   * title reply, and the stored priority is one of the three enum values.
   */
  lemma {:induction false} ValidatedCreate(b: Value)
    requires CreateTestCase(b)
    ensures !TestCaseController.Falsy(CreateBodyOf(b).title)
    ensures forall id, n :: TestCaseController.NewTestCase(id, CreateBodyOf(b), n).priority in Priorities
  {
    assert Get(b, "title").s != "";
  }

  /** A priority or automation type outside its enum is refused on create and update. */
  lemma {:induction false} EnumsClosed(b: Value)
    requires b.Obj?
    ensures Get(b, "priority").Str? && Get(b, "priority").s !in Priorities ==> !CreateTestCase(b) && !UpdateTestCase(b)
    ensures Get(b, "automationType").Str? && Get(b, "automationType").s !in AutomationTypes ==>
      !CreateTestCase(b) && !UpdateTestCase(b)
  {
  }

  /** An update may omit the title but not send an empty one, and a parsed update carries no folder. */
  lemma {:induction false} UpdateTitleAndFolder(b: Value)
    requires b.Obj?
    ensures Get(b, "title") == Str("") ==> !UpdateTestCase(b)
    ensures UpdateTestCase(b) ==> !HasKey(Strip(b, UpdateTestCaseKeys), "folderId")
    ensures UpdateTestCase(Obj(map[]))
  {
    var e := Obj(map[]);
    assert Get(e, "title") == Undefined && Get(e, "description") == Undefined && Get(e, "precondition") == Undefined;
    assert Get(e, "steps") == Undefined && Get(e, "expectedResult") == Undefined && Get(e, "priority") == Undefined;
    assert Get(e, "automationType") == Undefined && Get(e, "category") == Undefined;
  }

  /** Reorder, bulk delete and move all refuse an empty id list and an empty id. */
  lemma {:induction false} IdListsNonEmpty(b: Value, key: string)
    requires b.Obj? && key in {"orderedIds", "ids"}
    requires Get(b, key) == StrList([]) || exists ids :: Get(b, key) == StrList(ids) && "" in ids
    ensures key == "orderedIds" ==> !ReorderTestCases(b)
    ensures key == "ids" ==> !BulkDeleteTestCases(b) && !MoveTestCases(b) && !BulkUpdateTestCases(b)
  {
    if Get(b, key) != StrList([]) {
      var ids :| Get(b, key) == StrList(ids) && "" in ids;
      var i :| 0 <= i < |ids| && ids[i] == "";
      assert Get(b, key).items[i] == Str("");
    }
  }

  /**
   * A well-shaped bulk update passes exactly when it sets a priority or an
   * automation type, or names a category or a folder at all (`null` counts).
   */
  lemma {:induction false} BulkRefinement(b: Value)
    requires BulkUpdateTestCasesShape(b) && FromJson(b)
    ensures BulkUpdateTestCases(b) <==>
      HasKey(b, "priority") || HasKey(b, "automationType") || HasKey(b, "category") || HasKey(b, "folderId")
  {
    assert forall r :: r in Priorities ==> r != "";
    assert forall r :: r in AutomationTypes ==> r != "";
  }

  /** What `validateBody` hands on still satisfies the schema. */
  lemma {:induction false} ParsedBodiesStayValid(b: Value)
    requires b.Obj?
    ensures CreateTestCase(b) ==> CreateTestCase(Strip(b, CreateTestCaseKeys))
    ensures UpdateTestCase(b) ==> UpdateTestCase(Strip(b, UpdateTestCaseKeys))
    ensures ReorderTestCases(b) ==> ReorderTestCases(Strip(b, ReorderTestCasesKeys))
    ensures BulkUpdateTestCases(b) ==> BulkUpdateTestCases(Strip(b, BulkUpdateTestCasesKeys))
    ensures BulkDeleteTestCases(b) ==> BulkDeleteTestCases(Strip(b, BulkDeleteTestCasesKeys))
    ensures MoveTestCases(b) ==> MoveTestCases(Strip(b, MoveTestCasesKeys))
  {
  }
}
