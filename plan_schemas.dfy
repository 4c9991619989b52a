/**
 * The request schemas of the plan routes: what a body must look like for
 * `validateBody` to let it through to the plan controller.
 */
module PlanSchemas {
  import opened JsValue
  import opened ZodFields

  /** The values `planItemResultEnum` accepts. */
  const PlanItemResults: seq<string> := ["NOT_RUN", "PASS", "FAIL", "BLOCK"]

  /** Every result the plan screens offer in their result selects. */
  const OfferedResults: seq<string> := ["NOT_RUN", "IN_PROGRESS", "PASS", "FAIL", "BLOCK"]

  const CreatePlanKeys: set<string> := {"name", "description", "testCaseIds", "assignee"}
  const UpdatePlanKeys: set<string> := {"name", "description", "testCaseIds"}
  const PlanIdListKeys: set<string> := {"planIds"}
  const UpdatePlanItemKeys: set<string> := {"result", "comment", "assignee"}
  const BulkUpdatePlanItemsKeys: set<string> := {"items", "result", "comment", "assignee"}

  predicate CreatePlan(b: Value) {
    b.Obj?
    && MinString(Get(b, "name"), 1)
    && OptNullString(Get(b, "description"))
    && IdList(Get(b, "testCaseIds"), 1)
    && OptNullString(Get(b, "assignee"))
  }

  predicate UpdatePlan(b: Value) {
    b.Obj?
    && OptMinString(Get(b, "name"), 1)
    && OptNullString(Get(b, "description"))
    && OptIdList(Get(b, "testCaseIds"))
  }

  predicate PlanIdList(b: Value) {
    b.Obj? && IdList(Get(b, "planIds"), 1)
  }

  predicate UpdatePlanItem(b: Value) {
    b.Obj?
    && OptEnumOf(Get(b, "result"), PlanItemResults)
    && OptNullString(Get(b, "comment"))
    && OptNullString(Get(b, "assignee"))
  }

  /** The field shape of the bulk item update, before its refinement. */
  predicate BulkUpdatePlanItemsShape(b: Value, results: seq<string>) {
    b.Obj?
    && IdList(Get(b, "items"), 1)
    && OptEnumOf(Get(b, "result"), results)
    && OptNullString(Get(b, "comment"))
    && OptNullString(Get(b, "assignee"))
  }

  /** The refinement: a truthy result, or a comment or assignee that is not `undefined`. */
  predicate ChangesSomething(b: Value) {
    Truthy(Get(b, "result")) || !Get(b, "comment").Undefined? || !Get(b, "assignee").Undefined?
  }

  predicate BulkUpdatePlanItems(b: Value) {
    BulkUpdatePlanItemsShape(b, PlanItemResults) && ChangesSomething(b)
  }

  /** The bulk item update with the result enum the plan screens assume. */
  predicate IntendedBulkUpdatePlanItems(b: Value) {
    BulkUpdatePlanItemsShape(b, OfferedResults) && ChangesSomething(b)
  }

  /** The single item update with the result enum the plan screens assume. */
  predicate IntendedUpdatePlanItem(b: Value) {
    b.Obj?
    && OptEnumOf(Get(b, "result"), OfferedResults)
    && OptNullString(Get(b, "comment"))
    && OptNullString(Get(b, "assignee"))
  }

  /** A result is accepted exactly when it is one of the four enum values; IN_PROGRESS is not. */
  lemma {:induction false} ResultEnum(r: string)
    ensures UpdatePlanItem(Obj(map["result" := Str(r)])) <==> r in PlanItemResults
    ensures !UpdatePlanItem(Obj(map["result" := Str("IN_PROGRESS")]))
  {
    var b := Obj(map["result" := Str(r)]);
    assert Get(b, "result") == Str(r);
    assert Get(b, "comment") == Undefined && Get(b, "assignee") == Undefined;
    var ip := Obj(map["result" := Str("IN_PROGRESS")]);
    assert Get(ip, "result") == Str("IN_PROGRESS");
    assert "IN_PROGRESS" !in PlanItemResults;
  }

  /** A created plan has a non-empty name and at least one non-empty case id. */
  lemma {:induction false} CreatePlanNeeds(b: Value)
    requires CreatePlan(b)
    ensures Get(b, "name").s != ""
    ensures |Ids(Get(b, "testCaseIds"))| >= 1
    ensures forall id :: id in Ids(Get(b, "testCaseIds")) ==> id != ""
  {
  }

  /** An empty plan id list, or one holding an empty id, is refused. */
  lemma {:induction false} PlanIdListNeeds(b: Value)
    requires b.Obj?
    requires Get(b, "planIds") == StrList([]) || exists ids :: Get(b, "planIds") == StrList(ids) && "" in ids
    ensures !PlanIdList(b)
  {
    if Get(b, "planIds") != StrList([]) {
      var ids :| Get(b, "planIds") == StrList(ids) && "" in ids;
      var i :| 0 <= i < |ids| && ids[i] == "";
      assert Get(b, "planIds").items[i] == Str("");
    }
  }

  /** Every field of the plan and plan-item updates is optional, and the plan's case list may be empty. */
  lemma {:induction false} EmptyUpdatesAccepted()
    ensures UpdatePlan(Obj(map[]))
    ensures UpdatePlanItem(Obj(map[]))
    ensures UpdatePlan(Obj(map["testCaseIds" := StrList([])]))
  {
    var e := Obj(map[]);
    assert Get(e, "name") == Undefined && Get(e, "description") == Undefined && Get(e, "testCaseIds") == Undefined;
    assert Get(e, "result") == Undefined && Get(e, "comment") == Undefined && Get(e, "assignee") == Undefined;
    var l := Obj(map["testCaseIds" := StrList([])]);
    assert Get(l, "name") == Undefined && Get(l, "description") == Undefined;
    assert Get(l, "testCaseIds") == StrList([]);
  }

  /**
   * A well-shaped bulk update passes exactly when it sets a result, or names
   * a comment or an assignee at all (`null` and `""` count as naming one).
   */
  lemma {:induction false} BulkRefinement(b: Value)
    requires BulkUpdatePlanItemsShape(b, PlanItemResults) && FromJson(b)
    ensures BulkUpdatePlanItems(b) <==> HasKey(b, "result") || HasKey(b, "comment") || HasKey(b, "assignee")
  {
    assert Get(b, "result").Str? ==> Get(b, "result").s != "" by {
      assert forall r :: r in PlanItemResults ==> r != "";
    }
  }

  /** The IN_PROGRESS result the plan screens offer is refused by both plan-item schemas. */
  lemma {:induction false} InProgressRejected(items: seq<string>)
    requires |items| >= 1 && forall i :: 0 <= i < |items| ==> items[i] != ""
    ensures !BulkUpdatePlanItems(Obj(map["items" := StrList(items), "result" := Str("IN_PROGRESS")]))
    ensures IntendedBulkUpdatePlanItems(Obj(map["items" := StrList(items), "result" := Str("IN_PROGRESS")]))
    ensures !UpdatePlanItem(Obj(map["result" := Str("IN_PROGRESS")]))
    ensures IntendedUpdatePlanItem(Obj(map["result" := Str("IN_PROGRESS")]))
  {
    var b := Obj(map["items" := StrList(items), "result" := Str("IN_PROGRESS")]);
    assert Get(b, "items") == StrList(items) && Get(b, "result") == Str("IN_PROGRESS");
    assert Get(b, "comment") == Undefined && Get(b, "assignee") == Undefined;
    assert "IN_PROGRESS" !in PlanItemResults && "IN_PROGRESS" in OfferedResults;
    var s := Obj(map["result" := Str("IN_PROGRESS")]);
    assert Get(s, "result") == Str("IN_PROGRESS");
    assert Get(s, "comment") == Undefined && Get(s, "assignee") == Undefined;
  }

  /** The intended enum accepts every offered result, and accepts everything the enum as written does. */
  lemma {:induction false} IntendedAcceptsOffered(b: Value)
    ensures forall r :: r in OfferedResults ==> IntendedUpdatePlanItem(Obj(map["result" := Str(r)]))
    ensures BulkUpdatePlanItems(b) ==> IntendedBulkUpdatePlanItems(b)
    ensures UpdatePlanItem(b) ==> IntendedUpdatePlanItem(b)
  {
    forall r | r in OfferedResults ensures IntendedUpdatePlanItem(Obj(map["result" := Str(r)])) {
      var s := Obj(map["result" := Str(r)]);
      assert Get(s, "result") == Str(r);
      assert Get(s, "comment") == Undefined && Get(s, "assignee") == Undefined;
    }
  }

  /** What `validateBody` hands on still satisfies the schema. */
  lemma {:induction false} ParsedBodiesStayValid(b: Value)
    requires b.Obj?
    ensures CreatePlan(b) ==> CreatePlan(Strip(b, CreatePlanKeys))
    ensures UpdatePlan(b) ==> UpdatePlan(Strip(b, UpdatePlanKeys))
    ensures PlanIdList(b) ==> PlanIdList(Strip(b, PlanIdListKeys))
    ensures UpdatePlanItem(b) ==> UpdatePlanItem(Strip(b, UpdatePlanItemKeys))
    ensures BulkUpdatePlanItems(b) ==> BulkUpdatePlanItems(Strip(b, BulkUpdatePlanItemsKeys))
  {
  }
}
