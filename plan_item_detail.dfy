/**
 * The test case detail views of a plan item, the slide-in panel and the
 * detail column. Both keep a local copy of the item's result, assignee and
 * comment, send one-field updates through their `onUpdate` callback, and
 * list the case's steps line by line.
 */
module PlanItemDetail {
  import opened Wrappers
  import opened JsString
  import opened JsValue
  import PlanSchemas

  /** The fields of a plan item the views read; `None` is `null` or absent. */
  datatype PlanItemView = PlanItemView(
    id: string, result: string, assignee: Option<string>, comment: Option<string>, steps: Option<string>)

  /** The views' local state. */
  datatype LocalState = LocalState(result: string, assignee: string, comment: string)

  const Initial: LocalState := LocalState("NOT_RUN", "", "")

  /** A missing assignee or comment is shown as the empty string. */
  function OrEmpty(o: Option<string>): (r: string)
    ensures o.Some? ==> r == o.value
    ensures o.None? ==> r == ""
  {
    if o.Some? then o.value else ""
  }

  /** The effect run when the shown item changes: copy it in, or keep the state when there is none. */
  function Sync(s: LocalState, item: Option<PlanItemView>): (r: LocalState)
    ensures item.None? ==> r == s
    ensures item.Some? ==>
      r.result == item.value.result && r.assignee == OrEmpty(item.value.assignee) && r.comment == OrEmpty(item.value.comment)
  {
    if item.None? then s
    else LocalState(item.value.result, OrEmpty(item.value.assignee), OrEmpty(item.value.comment))
  }

  /** One call of `onUpdate`. */
  datatype Update = Update(itemId: string, body: Value)

  /** The one-key update a handler sends for the shown item, if any. */
  function Send(item: Option<PlanItemView>, key: string, value: string): (r: Option<Update>)
    ensures r.Some? <==> item.Some?
    ensures r.Some? ==> r.value.itemId == item.value.id && r.value.body == Obj(map[key := Str(value)])
  {
    if item.Some? then Some(Update(item.value.id, Obj(map[key := Str(value)]))) else None
  }

  /** `handleResultChange`: the new result is kept and sent for the shown item. */
  function ResultChange(s: LocalState, item: Option<PlanItemView>, result: string): (r: (LocalState, Option<Update>))
    ensures r.0 == s.(result := result)
    ensures r.1.Some? <==> item.Some?
    ensures r.1.Some? ==> r.1.value.itemId == item.value.id && r.1.value.body == Obj(map["result" := Str(result)])
  {
    (s.(result := result), Send(item, "result", result))
  }

  /** `handleAssigneeChange`: the chosen name is sent as it is, "" for Unassigned. */
  function AssigneeChange(s: LocalState, item: Option<PlanItemView>, assignee: string): (r: (LocalState, Option<Update>))
    ensures r.0 == s.(assignee := assignee)
    ensures r.1.Some? <==> item.Some?
    ensures r.1.Some? ==> r.1.value.itemId == item.value.id && r.1.value.body == Obj(map["assignee" := Str(assignee)])
  {
    (s.(assignee := assignee), Send(item, "assignee", assignee))
  }

  /** `handleCommentSave`: the locally edited comment is sent; the state is unchanged. */
  function CommentSave(s: LocalState, item: Option<PlanItemView>): (r: Option<Update>)
    ensures r.Some? <==> item.Some?
    ensures r.Some? ==> r.value.itemId == item.value.id && r.value.body == Obj(map["comment" := Str(s.comment)])
  {
    Send(item, "comment", s.comment)
  }

  /** The results the views' result select offers with their labels. */
  const OfferedResults: seq<string> := PlanSchemas.OfferedResults

  /**
   * Every update the views send names one key and passes the single item
   * schema the plan screens assume; against the schema as written the only
   * refused update is the IN_PROGRESS result.
   */
  lemma {:induction false} UpdatesAreSchemaValid(s: LocalState, item: PlanItemView, result: string, assignee: string)
    requires result in OfferedResults
    ensures var u := ResultChange(s, Some(item), result).1.value;
      PlanSchemas.IntendedUpdatePlanItem(u.body)
      && (PlanSchemas.UpdatePlanItem(u.body) <==> result != "IN_PROGRESS")
    ensures PlanSchemas.UpdatePlanItem(AssigneeChange(s, Some(item), assignee).1.value.body)
    ensures PlanSchemas.UpdatePlanItem(CommentSave(s, Some(item)).value.body)
  {
    var rb := Obj(map["result" := Str(result)]);
    assert Get(rb, "result") == Str(result);
    assert Get(rb, "comment") == Undefined && Get(rb, "assignee") == Undefined;
    assert result in PlanSchemas.PlanItemResults <==> result != "IN_PROGRESS";
    var ab := Obj(map["assignee" := Str(assignee)]);
    assert Get(ab, "assignee") == Str(assignee);
    assert Get(ab, "result") == Undefined && Get(ab, "comment") == Undefined;
    var cb := Obj(map["comment" := Str(s.comment)]);
    assert Get(cb, "comment") == Str(s.comment);
    assert Get(cb, "result") == Undefined && Get(cb, "assignee") == Undefined;
  }

  /** Saving right after an item is shown sends back the comment it was shown with ("" for none). */
  lemma {:induction false} SaveAfterSync(s: LocalState, item: PlanItemView)
    ensures CommentSave(Sync(s, Some(item)), Some(item)) == Some(Update(item.id, Obj(map["comment" := Str(OrEmpty(item.comment))])))
  {
  }

  /** The lines of a split that are not blank, in order. */
  function NonBlank(lines: seq<string>): (r: seq<string>)
    ensures |r| <= |lines|
    ensures forall l :: l in r <==> l in lines && !IsBlank(l)
  {
    if lines == [] then [] else (if IsBlank(lines[0]) then [] else [lines[0]]) + NonBlank(lines[1..])
  }

  /** The listed steps: the non-blank lines of the steps text, untrimmed; none without a text. */
  function Steps(steps: Option<string>): seq<string> {
    if steps.None? then [] else NonBlank(Split(steps.value, '\n'))
  }

  /** Every listed step is a non-blank line of the text, and every non-blank line is listed. */
  lemma {:induction false} StepsAreLines(text: string)
    ensures forall l :: l in Steps(Some(text)) <==> l in Split(text, '\n') && !IsBlank(l)
    ensures forall l :: l in Steps(Some(text)) ==> '\n' !in l
    ensures Steps(None) == [] && Steps(Some("")) == []
  {
    var lines := Split(text, '\n');
    forall l | l in Steps(Some(text)) ensures '\n' !in l {
      var k :| 0 <= k < |lines| && lines[k] == l;
    }
    assert Split("", '\n') == [""];
    assert IsBlank("");
  }

  lemma {:induction false} NonBlankKeepsAll(lines: seq<string>)
    requires forall k :: 0 <= k < |lines| ==> !IsBlank(lines[k])
    ensures NonBlank(lines) == lines
  {
    if lines != [] {
      NonBlankKeepsAll(lines[1..]);
      assert [lines[0]] + lines[1..] == lines;
    }
  }

  /** A text without blank lines is exactly its steps joined by newlines. */
  lemma {:induction false} StepsRoundTrip(text: string)
    requires forall l :: l in Split(text, '\n') ==> !IsBlank(l)
    ensures Join(Steps(Some(text)), "\n") == text
  {
    NonBlankKeepsAll(Split(text, '\n'));
    JoinSplit(text, '\n');
  }

  /** Steps written one per line are listed back unchanged. */
  lemma {:induction false} StepsOfLines(lines: seq<string>)
    requires |lines| >= 1
    requires forall k :: 0 <= k < |lines| ==> '\n' !in lines[k] && !IsBlank(lines[k])
    ensures Steps(Some(Join(lines, "\n"))) == lines
  {
    SplitJoin(lines, '\n');
    NonBlankKeepsAll(lines);
  }

  /** `getStatusLabel`. */
  function StatusLabel(status: string): string {
    if status == "NOT_RUN" then "NOT STARTED"
    else if status == "IN_PROGRESS" then "IN PROGRESS"
    else if status == "BLOCK" then "BLOCKED"
    else status
  }

  /** `getStatusColor`. */
  function StatusColor(status: string): string {
    if status == "PASS" then "bg-emerald-500 text-white"
    else if status == "FAIL" then "bg-red-500 text-white"
    else if status == "BLOCK" then "bg-gray-600 text-white"
    else if status == "IN_PROGRESS" then "bg-amber-500 text-white"
    else "bg-gray-400 text-white"
  }

  /**
   * The labels of the five offered results are the texts of the result
   * select and tell them apart; every other status is shown as it is and
   * coloured like NOT_RUN.
   */
  lemma {:induction false} StatusDisplay(status: string)
    ensures [StatusLabel("NOT_RUN"), StatusLabel("IN_PROGRESS"), StatusLabel("PASS"), StatusLabel("FAIL"), StatusLabel("BLOCK")]
      == ["NOT STARTED", "IN PROGRESS", "PASS", "FAIL", "BLOCKED"]
    ensures forall a, b :: a in OfferedResults && b in OfferedResults && a != b ==> StatusLabel(a) != StatusLabel(b)
    ensures status !in OfferedResults ==> StatusLabel(status) == status && StatusColor(status) == StatusColor("NOT_RUN")
    ensures forall a, b :: a in OfferedResults && b in OfferedResults && a != b ==> StatusColor(a) != StatusColor(b)
  {
    assert OfferedResults == ["NOT_RUN", "IN_PROGRESS", "PASS", "FAIL", "BLOCK"];
  }
}
