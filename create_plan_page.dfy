/**
 * The plan creation page: the search filter over the loaded cases, the
 * selection handlers and the submit guard with its request body.
 */
module CreatePlanPage {
  import opened Wrappers
  import opened JsString
  import opened JsValue
  import opened JsSet
  import opened ZodFields
  import PlanSchemas
  import Selection

  /** The fields of a listed case the page reads. */
  datatype CaseView = CaseView(id: string, title: string, precondition: Option<string>)

  /** The search match: the lower-cased title, or a non-empty precondition, contains the lower-cased query. */
  predicate Matches(c: CaseView, query: string) {
    Contains(ToLower(c.title), ToLower(query))
    || (c.precondition.Some? && c.precondition.value != "" && Contains(ToLower(c.precondition.value), ToLower(query)))
  }

  function Filter(cases: seq<CaseView>, query: string): (r: seq<CaseView>)
    ensures forall c :: c in r <==> c in cases && Matches(c, query)
    ensures |r| <= |cases|
  {
    if cases == [] then []
    else Filter(cases[..|cases| - 1], query) + (if Matches(cases[|cases| - 1], query) then [cases[|cases| - 1]] else [])
  }

  /** The search effect: all cases for a blank query, else the matching ones. */
  function FilteredCases(cases: seq<CaseView>, query: string): seq<CaseView> {
    if Trim(query) == "" then cases else Filter(cases, query)
  }

  /** Filtering keeps the original order: it distributes over concatenation. */
  lemma {:induction false} FilterKeepsOrder(a: seq<CaseView>, b: seq<CaseView>, query: string)
    ensures Filter(a + b, query) == Filter(a, query) + Filter(b, query)
    decreases |b|
  {
    if b != [] {
      var n := |b| - 1;
      assert (a + b)[..|a + b| - 1] == a + b[..n];
      FilterKeepsOrder(a, b[..n], query);
    } else {
      assert a + b == a;
    }
  }

  /**
   * A blank query shows every case; otherwise a case is shown exactly when it
   * matches, and the shown cases keep their order.
   */
  lemma {:induction false} SearchFilter(cases: seq<CaseView>, query: string)
    ensures IsBlank(query) ==> FilteredCases(cases, query) == cases
    ensures !IsBlank(query) ==> forall c :: c in FilteredCases(cases, query) <==> c in cases && Matches(c, query)
    ensures !IsBlank(query) ==> forall i :: 0 <= i <= |cases| ==>
      FilteredCases(cases, query) == Filter(cases[..i], query) + Filter(cases[i..], query)
  {
    if !IsBlank(query) {
      forall i | 0 <= i <= |cases| ensures FilteredCases(cases, query) == Filter(cases[..i], query) + Filter(cases[i..], query) {
        FilterKeepsOrder(cases[..i], cases[i..], query);
        assert cases[..i] + cases[i..] == cases;
      }
    }
  }

  function CaseId(c: CaseView): string {
    c.id
  }

  /** The selection after adding each filtered id in turn. */
  function AddAll(selected: seq<string>, ids: seq<string>): (r: seq<string>)
    requires Distinct(selected)
    ensures Distinct(r)
    ensures forall y :: y in r <==> y in selected || y in ids
    ensures |selected| <= |r| && r[..|selected|] == selected
  {
    if ids == [] then selected
    else
      var prev := AddAll(selected, ids[..|ids| - 1]);
      assert forall y :: y in ids <==> y in ids[..|ids| - 1] || y == ids[|ids| - 1];
      var r := Add(prev, ids[|ids| - 1]);
      assert r[..|prev|] == prev;
      assert r[..|selected|] == prev[..|selected|];
      r
  }

  /** `handleSelectAll`: clears when the sizes agree, otherwise adds every filtered id to a copy. */
  method SelectAll(selected: seq<string>, filtered: seq<CaseView>) returns (r: seq<string>)
    requires Distinct(selected)
    ensures |selected| == |filtered| ==> r == []
    ensures |selected| != |filtered| ==> r == AddAll(selected, Selection.IdsOf(filtered, CaseId))
  {
    if |selected| == |filtered| {
      return [];
    }
    r := selected;
    var ids := Selection.IdsOf(filtered, CaseId);
    var i := 0;
    while i < |filtered|
      invariant 0 <= i <= |filtered|
      invariant r == AddAll(selected, ids[..i])
    {
      assert ids[..i + 1][..i] == ids[..i];
      r := Add(r, filtered[i].id);
      i := i + 1;
    }
    assert ids[..|filtered|] == ids;
  }

  /**
   * Select-all compares sizes only: with as many selected ids as shown cases
   * it clears everything, selected ids outside the filter included; otherwise
   * it keeps every selected id and adds every shown one.
   */
  lemma {:induction false} SelectAllEffect(selected: seq<string>, filtered: seq<CaseView>)
    requires Distinct(selected)
    ensures |selected| != |filtered| ==> forall y :: y in AddAll(selected, Selection.IdsOf(filtered, CaseId)) <==>
      y in selected || exists i :: 0 <= i < |filtered| && filtered[i].id == y
    ensures |selected| != |filtered| ==> AddAll(selected, Selection.IdsOf(filtered, CaseId))[..|selected|] == selected
  {
    assert forall y :: y in Selection.IdsOf(filtered, CaseId) <==> exists i :: 0 <= i < |filtered| && filtered[i].id == y;
  }

  /** `handleToggleSelect`. */
  function ToggleSelect(selected: seq<string>, id: string): (r: seq<string>)
    requires Distinct(selected)
    ensures Distinct(r)
    ensures id in r <==> id !in selected
    ensures forall y :: y != id ==> (y in r <==> y in selected)
  {
    Selection.ToggleFlipsOne(selected, id);
    Selection.Toggle(selected, id)
  }

  const NameMissing: string := "플랜 이름을 입력해주세요."
  const SelectionMissing: string := "최소 하나 이상의 테스트케이스를 선택해주세요."

  datatype SubmitStep = Alert(message: string) | Submit(body: Value)

  /** The `createPlan` body: the name and description as typed and the selected ids. */
  function PlanBody(name: string, description: string, selected: seq<string>): Value {
    Obj(map["name" := Str(name), "description" := Str(description), "testCaseIds" := StrList(selected)])
  }

  /** `handleSubmit` up to the request. */
  function HandleSubmit(name: string, description: string, selected: seq<string>): SubmitStep {
    if Trim(name) == "" then Alert(NameMissing)
    else if |selected| == 0 then Alert(SelectionMissing)
    else Submit(PlanBody(name, description, selected))
  }

  /** No request without a non-blank name and a selection; a blank name is reported first. */
  lemma {:induction false} SubmitGuard(name: string, description: string, selected: seq<string>)
    ensures HandleSubmit(name, description, selected).Submit? <==> !IsBlank(name) && |selected| > 0
    ensures IsBlank(name) ==> HandleSubmit(name, description, selected) == Alert(NameMissing)
    ensures !IsBlank(name) && |selected| == 0 ==> HandleSubmit(name, description, selected) == Alert(SelectionMissing)
  {
    assert Trim(name) == "" <==> IsBlank(name);
  }

  /** The request holds the name untrimmed, the description and exactly the selected ids. */
  lemma {:induction false} SubmittedBody(name: string, description: string, selected: seq<string>)
    requires HandleSubmit(name, description, selected).Submit?
    ensures var b := HandleSubmit(name, description, selected).body;
      Get(b, "name") == Str(name) && Get(b, "description") == Str(description)
      && Get(b, "testCaseIds") == StrList(selected) && |StrList(selected).items| == |selected|
  {
    var b := PlanBody(name, description, selected);
    assert b.fields["name"] == Str(name);
    assert b.fields["description"] == Str(description);
    assert b.fields["testCaseIds"] == StrList(selected);
  }

  /** Every request the page submits with non-empty case ids passes the create-plan schema. */
  lemma {:induction false} SubmittedPlanIsValid(name: string, description: string, selected: seq<string>)
    requires HandleSubmit(name, description, selected).Submit?
    requires forall i :: 0 <= i < |selected| ==> selected[i] != ""
    ensures PlanSchemas.CreatePlan(HandleSubmit(name, description, selected).body)
  {
    var b := PlanBody(name, description, selected);
    assert Get(b, "name") == Str(name) && name != "";
    assert Get(b, "description") == Str(description);
    assert Get(b, "testCaseIds") == StrList(selected);
    assert Get(b, "assignee") == Undefined;
  }
}
