/**
 * The plan execution page: selection of plan items, the result counts and
 * progress figure, and the requests its handlers send.
 */
module PlanDetailPage {
  import opened Wrappers
  import opened JsValue
  import opened JsSet
  import opened ZodFields
  import PlanSchemas
  import Selection

  /** One row of the plan: the plan item's id and its current result. */
  datatype Item = Item(id: string, result: string)

  /** The page state the handlers read and write. */
  datatype PageState = PageState(selected: seq<string>, bulkResult: string, bulkAssignee: string)

  function ItemId(i: Item): string {
    i.id
  }

  /** `handleToggleSelect`. */
  function ToggleSelect(s: PageState, id: string): (r: PageState)
    requires Distinct(s.selected)
    ensures r.bulkResult == s.bulkResult && r.bulkAssignee == s.bulkAssignee
    ensures id in r.selected <==> id !in s.selected
    ensures forall y :: y != id ==> (y in r.selected <==> y in s.selected)
  {
    Selection.ToggleFlipsOne(s.selected, id);
    s.(selected := Selection.Toggle(s.selected, id))
  }

  /** `handleSelectAll`: clear when the sizes agree, else every item id. */
  function SelectAll(s: PageState, items: seq<Item>): (r: PageState)
    ensures r.bulkResult == s.bulkResult && r.bulkAssignee == s.bulkAssignee
    ensures |s.selected| == |items| ==> r.selected == []
    ensures |s.selected| != |items| ==> forall y :: y in r.selected <==> exists i :: 0 <= i < |items| && items[i].id == y
    ensures Distinct(r.selected)
  {
    if |s.selected| == |items| then s.(selected := [])
    else
      var r := s.(selected := FromSeq(Selection.IdsOf(items, ItemId)));
      assert forall y :: y in Selection.IdsOf(items, ItemId) <==> exists i :: 0 <= i < |items| && items[i].id == y;
      r
  }

  /** `plan.items.filter(i => i.result === r).length`. */
  function Count(items: seq<Item>, r: string): (n: nat)
    ensures n <= |items|
  {
    if items == [] then 0
    else Count(items[..|items| - 1], r) + (if items[|items| - 1].result == r then 1 else 0)
  }

  /** `Math.round(x)` for x = a / b with b > 0: the largest integer not above x + 1/2. */
  function RoundHalfUp(a: nat, b: nat): (r: nat)
    requires b > 0
    ensures (2 * b) * r <= 2 * a + b < (2 * b) * r + 2 * b
  {
    var d := 2 * b;
    var x := 2 * a + b;
    assert x == d * (x / d) + x % d;
    x / d
  }

  lemma {:induction false} MulMono(k: nat, y: int, z: int)
    requires y <= z
    ensures k * y <= k * z
  {
    var diff := z - y;
    assert k * z == k * y + k * diff;
  }

  /** The progress percentage: executed (not NOT_RUN) items over all, rounded. 0 for an empty plan. */
  function Progress(items: seq<Item>): nat {
    if |items| > 0 then RoundHalfUp(100 * (|items| - Count(items, "NOT_RUN")), |items|) else 0
  }

  /** Items with distinct results are counted apart: the four counts sum to at most the total. */
  lemma {:induction false} CountsWithinTotal(items: seq<Item>)
    ensures Count(items, "PASS") + Count(items, "FAIL") + Count(items, "BLOCK") + Count(items, "NOT_RUN") <= |items|
  {
    if items != [] {
      CountsWithinTotal(items[..|items| - 1]);
    }
  }

  /** Rounded percentages of e out of t lie between 0 and 100, are 100 for e = t and 0 for e = 0. */
  lemma {:induction false} PercentBounds(e: nat, t: nat)
    requires 0 < t && e <= t
    ensures RoundHalfUp(100 * e, t) <= 100
    ensures e == t ==> RoundHalfUp(100 * e, t) == 100
    ensures e == 0 ==> RoundHalfUp(100 * e, t) == 0
  {
    var r := RoundHalfUp(100 * e, t);
    MulMono(100, e, t);
    if r >= 101 {
      MulMono(2 * t, 101, r);
      assert false;
    }
    if e == t && r <= 99 {
      MulMono(2 * t, r, 99);
      assert false;
    }
    if e == 0 && r >= 1 {
      MulMono(2 * t, 1, r);
      assert false;
    }
  }

  /** Progress is a percentage, 100 with nothing left to run and 0 with nothing run. */
  lemma {:induction false} ProgressBounds(items: seq<Item>)
    ensures 0 <= Progress(items) <= 100
    ensures |items| > 0 && Count(items, "NOT_RUN") == 0 ==> Progress(items) == 100
    ensures Count(items, "NOT_RUN") == |items| ==> Progress(items) == 0
  {
    if |items| > 0 {
      PercentBounds(|items| - Count(items, "NOT_RUN"), |items|);
    }
  }

  /** More executed items never give a lower rounded percentage. */
  lemma {:induction false} PercentMono(e1: nat, e2: nat, t: nat)
    requires 0 < t && e1 <= e2
    ensures RoundHalfUp(100 * e1, t) <= RoundHalfUp(100 * e2, t)
  {
    var p, q := RoundHalfUp(100 * e1, t), RoundHalfUp(100 * e2, t);
    MulMono(100, e1, e2);
    if p > q {
      MulMono(2 * t, q + 1, p);
      assert false;
    }
  }

  /**
   * Only NOT_RUN holds progress back: changing a not-run item to any other
   * result, IN_PROGRESS included, never lowers it.
   */
  lemma {:induction false} OnlyNotRunLowersProgress(before: seq<Item>, i: nat, r: string)
    requires i < |before| && before[i].result == "NOT_RUN" && r != "NOT_RUN"
    ensures Count(before[i := before[i].(result := r)], "NOT_RUN") == Count(before, "NOT_RUN") - 1
    ensures Progress(before) <= Progress(before[i := before[i].(result := r)])
  {
    CountChange(before, i, r);
    var t := |before|;
    PercentMono(t - Count(before, "NOT_RUN"), t - Count(before, "NOT_RUN") + 1, t);
  }

  lemma {:induction false} CountChange(items: seq<Item>, i: nat, r: string)
    requires i < |items| && items[i].result == "NOT_RUN" && r != "NOT_RUN"
    ensures Count(items[i := items[i].(result := r)], "NOT_RUN") == Count(items, "NOT_RUN") - 1
    decreases |items|
  {
    var after := items[i := items[i].(result := r)];
    var n := |items| - 1;
    assert after[..n] == if i < n then items[..n][i := items[i].(result := r)] else items[..n];
    if i < n {
      CountChange(items[..n], i, r);
    }
  }

  /**
   * The execution walkthrough: three new items show 0, one passed item of
   * three shows 33, and after the other two fail it shows 100; an empty plan
   * shows 0.
   */
  lemma {:induction false} ProgressExamples(a: string, b: string, c: string)
    ensures Progress([]) == 0
    ensures Progress([Item(a, "NOT_RUN"), Item(b, "NOT_RUN"), Item(c, "NOT_RUN")]) == 0
    ensures Progress([Item(a, "PASS"), Item(b, "NOT_RUN"), Item(c, "NOT_RUN")]) == 33
    ensures Progress([Item(a, "PASS"), Item(b, "FAIL"), Item(c, "FAIL")]) == 100
  {
    var zs := [Item(a, "NOT_RUN"), Item(b, "NOT_RUN"), Item(c, "NOT_RUN")];
    assert zs[..2] == [Item(a, "NOT_RUN"), Item(b, "NOT_RUN")] && zs[..2][..1] == [Item(a, "NOT_RUN")];
    assert zs[..2][..1][..0] == [];
    assert Count(zs[..2][..1], "NOT_RUN") == 1;
    assert Count(zs[..2], "NOT_RUN") == 2;
    assert Count(zs, "NOT_RUN") == 3;
    PercentBounds(0, 3);
    var xs := [Item(a, "PASS"), Item(b, "NOT_RUN"), Item(c, "NOT_RUN")];
    assert xs[..2] == [Item(a, "PASS"), Item(b, "NOT_RUN")] && xs[..2][..1] == [Item(a, "PASS")];
    assert xs[..2][..1][..0] == [];
    assert "PASS" != "NOT_RUN";
    assert Count(xs[..2][..1], "NOT_RUN") == 0;
    assert Count(xs[..2], "NOT_RUN") == 1;
    assert Count(xs, "NOT_RUN") == 2;
    assert RoundHalfUp(100, 3) == 33;
    var ys := [Item(a, "PASS"), Item(b, "FAIL"), Item(c, "FAIL")];
    assert ys[..2] == [Item(a, "PASS"), Item(b, "FAIL")] && ys[..2][..1] == [Item(a, "PASS")];
    assert ys[..2][..1][..0] == [];
    assert Count(ys, "NOT_RUN") == 0;
    PercentBounds(3, 3);
  }

  /** What `handleBulkUpdate` leads to. */
  datatype BulkStep = NoPlan | NothingSelected | NothingChosen | Cancelled | Send(payload: Value)

  /** The body of the bulk request: the selection, and the result and assignee only when chosen. */
  function BulkPayload(s: PageState): Value {
    var base := map["items" := StrList(s.selected)];
    var withResult := if s.bulkResult != "" then base["result" := Str(s.bulkResult)] else base;
    Obj(if s.bulkAssignee != "" then withResult["assignee" := Str(s.bulkAssignee)] else withResult)
  }

  /** `handleBulkUpdate` up to the request; the user's answer to `confirm` is a parameter. */
  function HandleBulkUpdate(hasPlan: bool, s: PageState, confirmed: bool): BulkStep {
    if !hasPlan then NoPlan
    else if |s.selected| == 0 then NothingSelected
    else if s.bulkResult == "" && s.bulkAssignee == "" then NothingChosen
    else if !confirmed then Cancelled
    else Send(BulkPayload(s))
  }

  /** The state after the bulk request: reset after success, kept after failure. */
  function AfterBulkUpdate(s: PageState, succeeded: bool): PageState {
    if succeeded then PageState([], "", "") else s
  }

  /**
   * A request goes out only with a selection, a chosen result or assignee
   * and the user's confirmation; it carries exactly the selection, the
   * chosen fields, and never a comment.
   */
  lemma {:induction false} BulkRequestShape(hasPlan: bool, s: PageState, confirmed: bool)
    ensures HandleBulkUpdate(hasPlan, s, confirmed).Send? <==>
      hasPlan && |s.selected| > 0 && (s.bulkResult != "" || s.bulkAssignee != "") && confirmed
    ensures var p := BulkPayload(s);
      Get(p, "items") == StrList(s.selected)
      && (HasKey(p, "result") <==> s.bulkResult != "") && (s.bulkResult != "" ==> Get(p, "result") == Str(s.bulkResult))
      && (HasKey(p, "assignee") <==> s.bulkAssignee != "") && (s.bulkAssignee != "" ==> Get(p, "assignee") == Str(s.bulkAssignee))
      && !HasKey(p, "comment")
    ensures AfterBulkUpdate(s, true) == PageState([], "", "") && AfterBulkUpdate(s, false) == s
  {
  }

  /**
   * A bulk request with a result the backend enum knows passes the bulk
   * schema; under the enum the page assumes, every result it offers passes.
   */
  lemma {:induction false} BulkRequestValid(hasPlan: bool, s: PageState)
    requires HandleBulkUpdate(hasPlan, s, true).Send?
    requires forall i :: 0 <= i < |s.selected| ==> s.selected[i] != ""
    requires s.bulkResult == "" || s.bulkResult in PlanSchemas.OfferedResults
    ensures s.bulkResult == "" || s.bulkResult in PlanSchemas.PlanItemResults ==>
      PlanSchemas.BulkUpdatePlanItems(BulkPayload(s))
    ensures s.bulkResult == "IN_PROGRESS" ==> !PlanSchemas.BulkUpdatePlanItems(BulkPayload(s))
    ensures PlanSchemas.IntendedBulkUpdatePlanItems(BulkPayload(s))
  {
    var p := BulkPayload(s);
    assert Get(p, "items") == StrList(s.selected);
    assert IdList(StrList(s.selected), 1);
    if s.bulkResult != "" {
      assert Get(p, "result") == Str(s.bulkResult);
    } else {
      assert Get(p, "result") == Undefined;
    }
    if s.bulkAssignee != "" {
      assert Get(p, "assignee") == Str(s.bulkAssignee);
    } else {
      assert Get(p, "assignee") == Undefined;
    }
    assert Get(p, "comment") == Undefined;
    assert "IN_PROGRESS" !in PlanSchemas.PlanItemResults;
  }

  /** The single-item requests of the page, addressed by item id. */
  datatype ItemRequest = ItemRequest(itemId: string, body: Value)

  function ResultChange(hasPlan: bool, itemId: string, result: string): (r: Option<ItemRequest>)
    ensures r.Some? <==> hasPlan
    ensures r.Some? ==> r.value == ItemRequest(itemId, Obj(map["result" := Str(result)]))
  {
    if hasPlan then Some(ItemRequest(itemId, Obj(map["result" := Str(result)]))) else None
  }

  /** `{ assignee: newAssignee || undefined }`: "" (no assignee) is sent as `undefined`. */
  function AssigneeChange(hasPlan: bool, itemId: string, assignee: string): (r: Option<ItemRequest>)
    ensures r.Some? <==> hasPlan
    ensures r.Some? ==> r.value.itemId == itemId && r.value.body.Obj? && r.value.body.fields.Keys == {"assignee"}
    ensures r.Some? && assignee == "" ==> r.value.body.fields["assignee"] == Undefined
    ensures r.Some? && assignee != "" ==> r.value.body.fields["assignee"] == Str(assignee)
  {
    if hasPlan then Some(ItemRequest(itemId, Obj(map["assignee" := if assignee == "" then Undefined else Str(assignee)])))
    else None
  }

  function SaveComment(hasPlan: bool, editingItemId: Option<string>, comment: string): (r: Option<ItemRequest>)
    ensures r.Some? <==> hasPlan && editingItemId.Some? && editingItemId.value != ""
    ensures r.Some? ==> r.value == ItemRequest(editingItemId.value, Obj(map["comment" := Str(comment)]))
  {
    if hasPlan && editingItemId.Some? && editingItemId.value != "" then
      Some(ItemRequest(editingItemId.value, Obj(map["comment" := Str(comment)])))
    else None
  }

  /**
   * Choosing "no assignee" sends an `undefined` assignee, which the JSON body
   * leaves out: the request is the empty update, accepted and changing nothing
   * named; a chosen name is sent as is.
   */
  lemma {:induction false} EmptyAssigneeIsOmitted(itemId: string, assignee: string)
    ensures AssigneeChange(true, itemId, "").value.body.fields["assignee"] == Undefined
    ensures OnTheWire(AssigneeChange(true, itemId, "").value.body) == Obj(map[])
    ensures PlanSchemas.UpdatePlanItem(OnTheWire(AssigneeChange(true, itemId, "").value.body))
    ensures assignee != "" ==> OnTheWire(AssigneeChange(true, itemId, assignee).value.body) == Obj(map["assignee" := Str(assignee)])
    ensures AssigneeChange(false, itemId, assignee).None?
  {
    var w := OnTheWire(AssigneeChange(true, itemId, "").value.body);
    assert w.fields == map[];
    PlanSchemas.EmptyUpdatesAccepted();
    if assignee != "" {
      var v := OnTheWire(AssigneeChange(true, itemId, assignee).value.body);
      assert v.fields == map["assignee" := Str(assignee)];
    }
  }
}
