/**
 * The test-case controller over an in-memory store: listing, create with
 * "last sequence in the folder + 1", CSV import batching, partial update,
 * and delete cascading to plan items. Ids that the database generates are
 * inputs of the operations that create rows.
 */
module TestCaseController {
  import opened Wrappers
  import opened JsValue
  import JsString

  datatype TestCase = TestCase(
    id: string,
    title: string,
    description: Option<string>,
    precondition: Option<string>,
    steps: Option<string>,
    expectedResult: Option<string>,
    priority: string,
    folderId: Option<string>,
    sequence: int)

  datatype PlanItem = PlanItem(
    id: string,
    planId: string,
    testCaseId: string,
    result: string,
    assignee: Option<string>,
    comment: Option<string>)

  /** The JSON reply of create, update and delete. */
  datatype Reply = Reply(status: int, success: bool, message: Option<string>, data: Option<TestCase>)

  const TitleRequired: string := "제목은 필수입니다."
  const CaseNotFound: string := "테스트케이스를 찾을 수 없습니다."
  const CaseDeleted: string := "테스트케이스가 삭제되었습니다."
  const CsvFileRequired: string := "CSV 파일이 필요합니다."
  const TitleMissing: string := "제목(title)이 누락되었습니다."
  const CsvImportFailed: string := "CSV Import 실패"
  /** `String` of a plain object. */
  const ObjectString: string := "[object Object]"

  /** An absent or empty request field, as `!x` sees it. */
  predicate Falsy(s: Option<string>) {
    s.None? || s.value == ""
  }

  /** The folder a request addresses, `folderId || null`: a falsy id means the root (null). */
  function Scope(folderId: Option<string>): (r: Option<string>)
    ensures r.None? <==> Falsy(folderId)
    ensures r.Some? ==> r == folderId
  {
    if Falsy(folderId) then None else folderId
  }

  /**
   * `m` is what `(lastCase?.sequence || 0)` yields: the largest sequence among
   * the cases of the folder, or 0 when the folder has none.
   */
  ghost predicate IsLastSequence(cases: map<string, TestCase>, scope: Option<string>, m: int) {
    (forall k :: k in cases && cases[k].folderId == scope ==> cases[k].sequence <= m)
    && ((exists k :: k in cases && cases[k].folderId == scope && cases[k].sequence == m)
        || (m == 0 && forall k :: k in cases ==> cases[k].folderId != scope))
  }

  lemma {:induction false} LastSequenceUnique(cases: map<string, TestCase>, scope: Option<string>, m1: int, m2: int)
    requires IsLastSequence(cases, scope, m1) && IsLastSequence(cases, scope, m2)
    ensures m1 == m2
  {
    if k1 :| k1 in cases && cases[k1].folderId == scope && cases[k1].sequence == m1 {
      var k2 :| k2 in cases && cases[k2].folderId == scope && cases[k2].sequence == m2;
      assert m1 <= m2 && m2 <= m1;
    }
  }

  /**
   * A `req.query` value as the query-string parser hands it over: absent,
   * one string, a list (a repeated or bracketed parameter), or an object
   * (a parameter with a bracketed key).
   */
  datatype QueryValue = NoParam | One(s: string) | Many(items: seq<string>) | Nested

  /**
   * `folderId ? String(folderId) : undefined`: the folder the listing is
   * filtered on, none for an absent or empty value. A list is truthy even
   * when it holds only "", and `String` joins it with commas.
   */
  function FolderWhere(q: QueryValue): (r: Option<string>)
    ensures r.None? <==> q.NoParam? || q == One("")
    ensures q.One? && q.s != "" ==> r == Some(q.s)
    ensures q.Many? ==> r == Some(JsString.Join(q.items, ","))
    ensures q.Nested? ==> r == Some(ObjectString)
  {
    match q
    case NoParam => None
    case One(s) => if s == "" then None else Some(s)
    case Many(items) => Some(JsString.Join(items, ","))
    case Nested => Some(ObjectString)
  }

  /** The listing filter: without a folder every case is listed, otherwise the cases of exactly that folder. */
  predicate Listed(where: Option<string>, c: TestCase) {
    where.None? || c.folderId == where
  }

  /**
   * A repeated parameter filters on the values joined by commas, and a
   * bracketed empty one on "", which no case filed in a folder matches.
   */
  lemma {:induction false} QueryCoercion(a: string, b: string, c: TestCase)
    ensures FolderWhere(Many([a, b])) == Some(a + "," + b)
    ensures FolderWhere(Many([""])) == Some("")
    ensures Listed(FolderWhere(Many([""])), c) <==> c.folderId == Some("")
    ensures Listed(FolderWhere(One("")), c) && Listed(FolderWhere(NoParam), c)
  {
    assert JsString.Join([a, b], ",") == a + "," + JsString.Join([b], ",");
  }

  predicate SortedBySequence(r: seq<TestCase>) {
    forall i, j :: 0 <= i < j < |r| ==> r[i].sequence <= r[j].sequence
  }

  /** Where `c` goes in a list sorted by sequence: after every case with a sequence no larger. */
  function InsertionPoint(r: seq<TestCase>, c: TestCase): (p: nat)
    ensures p <= |r|
    ensures forall i :: 0 <= i < p ==> r[i].sequence <= c.sequence
    ensures SortedBySequence(r) ==> forall i :: p <= i < |r| ==> r[i].sequence > c.sequence
  {
    if r == [] || r[0].sequence > c.sequence then 0 else 1 + InsertionPoint(r[1..], c)
  }

  lemma {:induction false} InsertKeepsSorted(r: seq<TestCase>, c: TestCase, p: nat)
    requires SortedBySequence(r) && p == InsertionPoint(r, c)
    ensures SortedBySequence(r[..p] + [c] + r[p..])
  {
    var out := r[..p] + [c] + r[p..];
    forall i, j | 0 <= i < j < |out| ensures out[i].sequence <= out[j].sequence {
      if j < p {
        assert out[i] == r[i] && out[j] == r[j];
      } else if j == p {
        assert out[i] == r[i];
      } else if i == p {
        assert out[j] == r[j - 1];
      } else if i < p {
        assert out[i] == r[i] && out[j] == r[j - 1];
      } else {
        assert out[i] == r[i - 1] && out[j] == r[j - 1];
      }
    }
  }

  /** Inserting `c` at position `p` keeps every element and adds `c`. */
  lemma {:induction false} InsertMembers(r: seq<TestCase>, c: TestCase, p: nat)
    requires p <= |r|
    ensures forall x :: x in r[..p] + [c] + r[p..] <==> x in r || x == c
  {
    assert r == r[..p] + r[p..];
  }

  /** Inserting a case with a new id keeps the ids distinct. */
  lemma {:induction false} InsertKeepsIdsDistinct(r: seq<TestCase>, c: TestCase, p: nat)
    requires p <= |r|
    requires forall i, j :: 0 <= i < j < |r| ==> r[i].id != r[j].id
    requires forall i :: 0 <= i < |r| ==> r[i].id != c.id
    ensures forall i, j :: 0 <= i < j < |r| + 1 ==> (r[..p] + [c] + r[p..])[i].id != (r[..p] + [c] + r[p..])[j].id
  {
    var out := r[..p] + [c] + r[p..];
    forall i, j | 0 <= i < j < |out| ensures out[i].id != out[j].id {
      var i' := if i < p then i else i - 1;
      var j' := if j < p then j else j - 1;
      if i != p && j != p {
        assert out[i] == r[i'] && out[j] == r[j'];
      } else if i == p {
        assert out[j] == r[j'];
      } else {
        assert out[i] == r[i'];
      }
    }
  }

  /** The body fields createTestCase reads. */
  datatype CreateBody = CreateBody(
    title: Option<string>,
    description: Option<string>,
    precondition: Option<string>,
    steps: Option<string>,
    expectedResult: Option<string>,
    priority: Option<string>,
    folderId: Option<string>)

  /** The body fields updateTestCase reads; an absent field is left unchanged. */
  datatype UpdateBody = UpdateBody(
    title: Option<string>,
    description: Option<string>,
    precondition: Option<string>,
    steps: Option<string>,
    expectedResult: Option<string>,
    priority: Option<string>)

  /** The row createTestCase inserts. */
  function NewTestCase(id: string, body: CreateBody, sequence: int): (c: TestCase)
    requires !Falsy(body.title)
    ensures c.id == id && c.title == body.title.value && c.sequence == sequence
    ensures c.priority == (if Falsy(body.priority) then "MEDIUM" else body.priority.value)
    ensures c.folderId == Scope(body.folderId)
  {
    TestCase(id, body.title.value, body.description, body.precondition, body.steps,
             body.expectedResult, if Falsy(body.priority) then "MEDIUM" else body.priority.value,
             Scope(body.folderId), sequence)
  }

  function Override(old_: Option<string>, new_: Option<string>): Option<string> {
    if new_.Some? then new_ else old_
  }

  /** The row after a partial update: given fields replace, absent ones stay. */
  function Patch(c: TestCase, body: UpdateBody): TestCase {
    c.(title := if body.title.Some? then body.title.value else c.title,
       description := Override(c.description, body.description),
       precondition := Override(c.precondition, body.precondition),
       steps := Override(c.steps, body.steps),
       expectedResult := Override(c.expectedResult, body.expectedResult),
       priority := if body.priority.Some? then body.priority.value else c.priority)
  }

  /** An update never moves a case: its id, folder and sequence stay. */
  lemma {:induction false} PatchKeepsPlacement(c: TestCase, body: UpdateBody)
    ensures Patch(c, body).id == c.id
    ensures Patch(c, body).folderId == c.folderId && Patch(c, body).sequence == c.sequence
    ensures body == UpdateBody(None, None, None, None, None, None) ==> Patch(c, body) == c
    ensures Patch(Patch(c, body), body) == Patch(c, body)
  {
  }

  /** The plan items left after the cascade: those not referring to `id`, in order. */
  function WithoutCase(items: seq<PlanItem>, id: string): (r: seq<PlanItem>)
    ensures forall p :: p in r <==> p in items && p.testCaseId != id
    ensures |r| <= |items|
  {
    if items == [] then []
    else (if items[0].testCaseId == id then [] else [items[0]]) + WithoutCase(items[1..], id)
  }

  function CountReferencing(items: seq<PlanItem>, id: string): nat {
    if items == [] then 0
    else (if items[0].testCaseId == id then 1 else 0) + CountReferencing(items[1..], id)
  }

  /** A case referenced by M plan items loses exactly those M items. */
  lemma {:induction false} CascadeRemovesReferencing(items: seq<PlanItem>, id: string)
    ensures |WithoutCase(items, id)| == |items| - CountReferencing(items, id)
  {
    if items != [] {
      CascadeRemovesReferencing(items[1..], id);
    }
  }

  // ---------------------------------------------------------------- CSV import

  /** A parsed CSV record: header to (trimmed) cell. */
  type Row = map<string, string>

  /** `testCaseData`: the object built for one row, keyed by field name. */
  type Draft = map<string, Value>

  datatype Failure = Failure(row: int, message: string, data: Row)

  datatype ImportReport = ImportReport(successCount: nat, failureCount: nat, failures: seq<Failure>)

  datatype ImportReply = ImportRejected(status: int, message: string) | Imported(report: ImportReport)

  /** The fields copied from same-named columns when no mapping is given. */
  const DbFields: seq<string> := ["title", "description", "precondition", "steps", "expectedResult", "priority"]

  /** The whitelist as a mapping from each column to the field of the same name. */
  function WhitelistMapping(): (m: seq<(string, string)>)
    ensures |m| == |DbFields|
    ensures forall i :: 0 <= i < |m| ==> m[i] == (DbFields[i], DbFields[i])
  {
    seq(|DbFields|, i requires 0 <= i < |DbFields| => (DbFields[i], DbFields[i]))
  }

  predicate CellTruthy(row: Row, header: string) {
    header in row && row[header] != ""
  }

  function InitialDraft(scope: Option<string>): Draft {
    map["folderId" := (if scope.Some? then Str(scope.value) else Null), "priority" := Str("MEDIUM")]
  }

  /** One step of the copy loop: a truthy cell is written to its field. */
  function CopyEntry(d: Draft, row: Row, entry: (string, string)): Draft {
    if CellTruthy(row, entry.0) then d[entry.1 := Str(row[entry.0])] else d
  }

  /** The copy loop over the mapping entries, in order. */
  function CopyMapped(d: Draft, row: Row, mapping: seq<(string, string)>): Draft {
    if mapping == [] then d
    else CopyEntry(CopyMapped(d, row, mapping[..|mapping| - 1]), row, mapping[|mapping| - 1])
  }

  /** The entries in use: an explicit non-empty mapping, else the whitelist. */
  function EntriesFor(mapping: seq<(string, string)>): seq<(string, string)> {
    if |mapping| > 0 then mapping else WhitelistMapping()
  }

  function MapRow(row: Row, mapping: seq<(string, string)>, scope: Option<string>): Draft {
    CopyMapped(InitialDraft(scope), row, EntriesFor(mapping))
  }

  predicate HasTitle(d: Draft) {
    "title" in d && Truthy(d["title"])
  }

  /** The cell the last entry targeting `field` with a truthy cell supplies. */
  function LastCell(row: Row, mapping: seq<(string, string)>, field: string): Option<string> {
    if mapping == [] then None
    else
      var e := mapping[|mapping| - 1];
      if e.1 == field && CellTruthy(row, e.0) then Some(row[e.0])
      else LastCell(row, mapping[..|mapping| - 1], field)
  }

  /**
   * What the copy loop leaves in each field: the cell of the last entry for
   * that field whose cell is non-empty, or the initial value when there is none.
   */
  lemma {:induction false} CopyMappedField(d: Draft, row: Row, mapping: seq<(string, string)>, field: string)
    ensures field in CopyMapped(d, row, mapping) <==> field in d || LastCell(row, mapping, field).Some?
    ensures LastCell(row, mapping, field).Some? ==>
      CopyMapped(d, row, mapping)[field] == Str(LastCell(row, mapping, field).value)
    ensures LastCell(row, mapping, field).None? && field in d ==> CopyMapped(d, row, mapping)[field] == d[field]
  {
    if mapping != [] {
      CopyMappedField(d, row, mapping[..|mapping| - 1], field);
    }
  }

  /** The copy loop writes no key but the initial ones and the mapping's targets. */
  lemma {:induction false} CopyMappedKeys(d: Draft, row: Row, mapping: seq<(string, string)>, k: string)
    requires k in CopyMapped(d, row, mapping)
    ensures k in d || exists i :: 0 <= i < |mapping| && mapping[i].1 == k
  {
    if mapping != [] {
      var n := |mapping| - 1;
      if k != mapping[n].1 || !CellTruthy(row, mapping[n].0) {
        CopyMappedKeys(d, row, mapping[..n], k);
        if k !in d {
          var i :| 0 <= i < n && mapping[..n][i].1 == k;
          assert mapping[i].1 == k;
        }
      }
    }
  }

  /** Entries that target other fields do not change what a field receives. */
  lemma {:induction false} LastCellSkip(row: Row, mapping: seq<(string, string)>, k: nat, field: string)
    requires k <= |mapping|
    requires forall j :: k <= j < |mapping| ==> mapping[j].1 != field
    ensures LastCell(row, mapping, field) == LastCell(row, mapping[..k], field)
    decreases |mapping| - k
  {
    if k < |mapping| {
      var n := |mapping| - 1;
      LastCellSkip(row, mapping[..n], k, field);
      assert mapping[..n][..k] == mapping[..k];
    } else {
      assert mapping[..k] == mapping;
    }
  }

  /** With no mapping, a whitelisted field takes its same-named cell when that cell is non-empty. */
  lemma {:induction false} WhitelistField(row: Row, i: nat)
    requires i < |DbFields|
    ensures LastCell(row, WhitelistMapping(), DbFields[i]) ==
      (if CellTruthy(row, DbFields[i]) then Some(row[DbFields[i]]) else None)
  {
    var m := WhitelistMapping();
    var f := DbFields[i];
    assert forall a, b :: 0 <= a < b < |DbFields| ==> DbFields[a] != DbFields[b];
    LastCellSkip(row, m, i + 1, f);
    LastCellSkip(row, m[..i], 0, f);
    assert m[..i + 1][..i] == m[..i];
  }

  /** With no mapping, no field outside the whitelist receives a cell. */
  lemma {:induction false} WhitelistOnly(row: Row, field: string)
    requires field !in DbFields
    ensures LastCell(row, WhitelistMapping(), field).None?
  {
    LastCellSkip(row, WhitelistMapping(), 0, field);
  }

  function WithSequence(d: Draft, n: int): Draft {
    d["sequence" := Num(n)]
  }

  /** The rows that pass, mapped, in source order. */
  function ValidRows(records: seq<Row>, mapping: seq<(string, string)>, scope: Option<string>): seq<Draft> {
    if records == [] then []
    else
      var n := |records| - 1;
      var d := MapRow(records[n], mapping, scope);
      ValidRows(records[..n], mapping, scope) + (if HasTitle(d) then [d] else [])
  }

  /** `testCasesToCreate`: each passing row with the next sequence number. */
  function Batch(records: seq<Row>, mapping: seq<(string, string)>, scope: Option<string>, lastMax: int): (r: seq<Draft>)
    ensures |r| <= |records|
  {
    if records == [] then []
    else
      var n := |records| - 1;
      var prev := Batch(records[..n], mapping, scope, lastMax);
      var d := MapRow(records[n], mapping, scope);
      prev + (if HasTitle(d) then [WithSequence(d, lastMax + |prev| + 1)] else [])
  }

  /** `failures`: each row with no title, at its display row `index + 2`, with the raw row. */
  function Failures(records: seq<Row>, mapping: seq<(string, string)>, scope: Option<string>): seq<Failure> {
    if records == [] then []
    else
      var n := |records| - 1;
      var d := MapRow(records[n], mapping, scope);
      Failures(records[..n], mapping, scope) + (if HasTitle(d) then [] else [Failure(n + 2, TitleMissing, records[n])])
  }

  /** Every record is either inserted or reported as a failure. */
  lemma {:induction false} CountsAddUp(records: seq<Row>, mapping: seq<(string, string)>, scope: Option<string>, lastMax: int)
    ensures |Batch(records, mapping, scope, lastMax)| + |Failures(records, mapping, scope)| == |records|
  {
    if records != [] {
      CountsAddUp(records[..|records| - 1], mapping, scope, lastMax);
    }
  }

  /**
   * The batch is the passing rows in source order, numbered lastMax + 1,
   * lastMax + 2, ...: a failing row uses no sequence number.
   */
  lemma {:induction false} BatchIsNumberedValidRows(records: seq<Row>, mapping: seq<(string, string)>, scope: Option<string>, lastMax: int)
    ensures |Batch(records, mapping, scope, lastMax)| == |ValidRows(records, mapping, scope)|
    ensures forall j :: 0 <= j < |ValidRows(records, mapping, scope)| ==>
      Batch(records, mapping, scope, lastMax)[j] == WithSequence(ValidRows(records, mapping, scope)[j], lastMax + j + 1)
    ensures forall j :: 0 <= j < |ValidRows(records, mapping, scope)| ==> HasTitle(ValidRows(records, mapping, scope)[j])
  {
    if records != [] {
      BatchIsNumberedValidRows(records[..|records| - 1], mapping, scope, lastMax);
    }
  }

  /** Each failure is a title-less row, at display row index + 2, carrying the raw record. */
  lemma {:induction false} FailuresAreTitlelessRows(records: seq<Row>, mapping: seq<(string, string)>, scope: Option<string>, j: nat)
    requires j < |Failures(records, mapping, scope)|
    ensures 2 <= Failures(records, mapping, scope)[j].row < |records| + 2
    ensures Failures(records, mapping, scope)[j].data == records[Failures(records, mapping, scope)[j].row - 2]
    ensures Failures(records, mapping, scope)[j].message == TitleMissing
    ensures !HasTitle(MapRow(records[Failures(records, mapping, scope)[j].row - 2], mapping, scope))
  {
    var n := |records| - 1;
    var prev := Failures(records[..n], mapping, scope);
    if j < |prev| {
      FailuresAreTitlelessRows(records[..n], mapping, scope, j);
      assert Failures(records, mapping, scope)[j] == prev[j];
      assert records[..n][prev[j].row - 2] == records[prev[j].row - 2];
    }
  }

  /** Failures are listed in row order. */
  lemma {:induction false} FailuresInRowOrder(records: seq<Row>, mapping: seq<(string, string)>, scope: Option<string>, j: nat, k: nat)
    requires j < k < |Failures(records, mapping, scope)|
    ensures Failures(records, mapping, scope)[j].row < Failures(records, mapping, scope)[k].row
  {
    var n := |records| - 1;
    var prev := Failures(records[..n], mapping, scope);
    var fs := Failures(records, mapping, scope);
    assert fs[j] == prev[j];
    if k < |prev| {
      FailuresInRowOrder(records[..n], mapping, scope, j, k);
      assert fs[k] == prev[k];
    } else {
      FailuresAreTitlelessRows(records[..n], mapping, scope, j);
    }
  }

  /** Every title-less row is reported; the later rows are still processed. */
  lemma {:induction false} TitlelessRowsAreReported(records: seq<Row>, mapping: seq<(string, string)>, scope: Option<string>, i: nat)
    requires i < |records| && !HasTitle(MapRow(records[i], mapping, scope))
    ensures exists j :: 0 <= j < |Failures(records, mapping, scope)| && Failures(records, mapping, scope)[j].row == i + 2
  {
    var n := |records| - 1;
    var fs := Failures(records, mapping, scope);
    var prev := Failures(records[..n], mapping, scope);
    if i < n {
      assert records[..n][i] == records[i];
      TitlelessRowsAreReported(records[..n], mapping, scope, i);
      var j :| 0 <= j < |prev| && prev[j].row == i + 2;
      assert fs[j] == prev[j];
    } else {
      assert fs[|fs| - 1].row == i + 2;
    }
  }

  lemma {:induction false} BatchStep(records: seq<Row>, mapping: seq<(string, string)>, scope: Option<string>, lastMax: int, i: nat)
    requires i < |records|
    ensures Batch(records[..i + 1], mapping, scope, lastMax) ==
      Batch(records[..i], mapping, scope, lastMax)
      + (if HasTitle(MapRow(records[i], mapping, scope))
         then [WithSequence(MapRow(records[i], mapping, scope), lastMax + |Batch(records[..i], mapping, scope, lastMax)| + 1)]
         else [])
  {
    assert records[..i + 1][..i] == records[..i];
  }

  lemma {:induction false} FailuresStep(records: seq<Row>, mapping: seq<(string, string)>, scope: Option<string>, i: nat)
    requires i < |records|
    ensures Failures(records[..i + 1], mapping, scope) ==
      Failures(records[..i], mapping, scope)
      + (if HasTitle(MapRow(records[i], mapping, scope)) then [] else [Failure(i + 2, TitleMissing, records[i])])
  {
    assert records[..i + 1][..i] == records[..i];
  }

  /** The copy loop for one row (`for (const [csvHeader, dbField] of Object.entries(headerMapping))`). */
  method BuildRowData(row: Row, mapping: seq<(string, string)>, scope: Option<string>) returns (testCaseData: Draft)
    ensures testCaseData == MapRow(row, mapping, scope)
  {
    var entries := EntriesFor(mapping);
    testCaseData := InitialDraft(scope);
    var e := 0;
    while e < |entries|
      invariant 0 <= e <= |entries|
      invariant testCaseData == CopyMapped(InitialDraft(scope), row, entries[..e])
    {
      assert entries[..e + 1][..e] == entries[..e];
      if CellTruthy(row, entries[e].0) {
        testCaseData := testCaseData[entries[e].1 := Str(row[entries[e].0])];
      }
      e := e + 1;
    }
    assert entries[..|entries|] == entries;
  }

  /** The import row loop (`for (const [index, row] of records.entries())`). */
  method ImportRows(records: seq<Row>, mapping: seq<(string, string)>, scope: Option<string>, lastMax: int)
    returns (report: ImportReport, toCreate: seq<Draft>)
    ensures toCreate == Batch(records, mapping, scope, lastMax)
    ensures report.failures == Failures(records, mapping, scope)
    ensures report.successCount == |toCreate| && report.failureCount == |report.failures|
    ensures report.successCount + report.failureCount == |records|
  {
    var successCount: nat, failureCount: nat := 0, 0;
    var failures: seq<Failure> := [];
    toCreate := [];
    var currentSequence := lastMax;
    var index := 0;
    while index < |records|
      invariant 0 <= index <= |records|
      invariant toCreate == Batch(records[..index], mapping, scope, lastMax)
      invariant failures == Failures(records[..index], mapping, scope)
      invariant successCount == |toCreate| && failureCount == |failures|
      invariant currentSequence == lastMax + |toCreate|
    {
      var row := records[index];
      var testCaseData := BuildRowData(row, mapping, scope);
      BatchStep(records, mapping, scope, lastMax, index);
      FailuresStep(records, mapping, scope, index);
      if HasTitle(testCaseData) {
        currentSequence := currentSequence + 1;
        toCreate := toCreate + [WithSequence(testCaseData, currentSequence)];
        successCount := successCount + 1;
      } else {
        failureCount := failureCount + 1;
        failures := failures + [Failure(index + 2, TitleMissing, row)];
      }
      index := index + 1;
    }
    assert records[..|records|] == records;
    CountsAddUp(records, mapping, scope, lastMax);
    report := ImportReport(successCount, failureCount, failures);
  }

  function StrField(d: Draft, key: string): Option<string> {
    if key in d && d[key].Str? then Some(d[key].s) else None
  }

  /** The row createMany inserts for one draft, under a database-generated id. */
  function ToTestCase(id: string, d: Draft): (c: TestCase)
    ensures c.id == id
  {
    TestCase(id,
      if StrField(d, "title").Some? then StrField(d, "title").value else "",
      StrField(d, "description"), StrField(d, "precondition"), StrField(d, "steps"),
      StrField(d, "expectedResult"),
      if StrField(d, "priority").Some? then StrField(d, "priority").value else "MEDIUM",
      StrField(d, "folderId"),
      if "sequence" in d && d["sequence"].Num? then d["sequence"].n else 0)
  }

  /** The table after createMany of `drafts` under the ids `ids`. */
  function InsertBatch(cases: map<string, TestCase>, ids: seq<string>, drafts: seq<Draft>): map<string, TestCase>
    requires |drafts| <= |ids|
  {
    if drafts == [] then cases
    else
      var n := |drafts| - 1;
      InsertBatch(cases, ids, drafts[..n])[ids[n] := ToTestCase(ids[n], drafts[n])]
  }

  /** createMany adds exactly the drafts' ids to the table's keys. */
  lemma {:induction false} InsertBatchKeys(cases: map<string, TestCase>, ids: seq<string>, drafts: seq<Draft>)
    requires |drafts| <= |ids|
    ensures InsertBatch(cases, ids, drafts).Keys == cases.Keys + set j | 0 <= j < |drafts| :: ids[j]
  {
    if drafts != [] {
      var n := |drafts| - 1;
      InsertBatchKeys(cases, ids, drafts[..n]);
      assert (set j | 0 <= j < |drafts| :: ids[j]) == (set j | 0 <= j < n :: ids[j]) + {ids[n]};
    }
  }

  /** createMany leaves the rows already in the table alone. */
  lemma {:induction false} InsertBatchKeepsRows(cases: map<string, TestCase>, ids: seq<string>, drafts: seq<Draft>)
    requires |drafts| <= |ids|
    requires forall i :: 0 <= i < |ids| ==> ids[i] !in cases
    ensures forall k :: k in cases ==> k in InsertBatch(cases, ids, drafts) && InsertBatch(cases, ids, drafts)[k] == cases[k]
  {
    if drafts != [] {
      InsertBatchKeepsRows(cases, ids, drafts[..|drafts| - 1]);
    }
  }

  /** createMany stores draft j under id j. */
  lemma {:induction false} InsertBatchNewRows(cases: map<string, TestCase>, ids: seq<string>, drafts: seq<Draft>, j: nat)
    requires j < |drafts| <= |ids|
    requires forall a, b :: 0 <= a < b < |ids| ==> ids[a] != ids[b]
    ensures ids[j] in InsertBatch(cases, ids, drafts)
    ensures InsertBatch(cases, ids, drafts)[ids[j]] == ToTestCase(ids[j], drafts[j])
  {
    var n := |drafts| - 1;
    if j < n {
      InsertBatchNewRows(cases, ids, drafts[..n], j);
      assert drafts[..n][j] == drafts[j];
    }
  }

  /** Rows inserted by createMany are keyed by their ids, as the store requires. */
  lemma {:induction false} InsertBatchKeyed(cases: map<string, TestCase>, ids: seq<string>, drafts: seq<Draft>)
    requires |drafts| <= |ids|
    requires forall k :: k in cases ==> cases[k].id == k
    ensures forall k :: k in InsertBatch(cases, ids, drafts) ==> InsertBatch(cases, ids, drafts)[k].id == k
    ensures cases.Keys <= InsertBatch(cases, ids, drafts).Keys
  {
    if drafts != [] {
      InsertBatchKeyed(cases, ids, drafts[..|drafts| - 1]);
    }
  }

  /** The id a draft is stored under: its own "id" field when a mapping supplied one, else the generated id. */
  function RowId(d: Draft, generated: string): string {
    if StrField(d, "id").Some? then StrField(d, "id").value else generated
  }

  function BatchIds(drafts: seq<Draft>, generated: seq<string>): (ids: seq<string>)
    requires |drafts| <= |generated|
    ensures |ids| == |drafts|
    ensures forall j :: 0 <= j < |drafts| ==> ids[j] == RowId(drafts[j], generated[j])
  {
    seq(|drafts|, j requires 0 <= j < |drafts| => RowId(drafts[j], generated[j]))
  }

  /** Some draft has a key that names no column of the table. */
  predicate UnknownColumn(columns: set<string>, drafts: seq<Draft>) {
    exists j :: 0 <= j < |drafts| && exists k :: k in drafts[j] && k !in columns
  }

  /**
   * createMany refuses the whole batch: a key names no column, or an id is
   * already taken or repeated within the batch.
   */
  predicate BatchRejected(cases: map<string, TestCase>, columns: set<string>, drafts: seq<Draft>, ids: seq<string>) {
    UnknownColumn(columns, drafts)
    || (exists j :: 0 <= j < |ids| && ids[j] in cases)
    || (exists a, b :: 0 <= a < b < |ids| && ids[a] == ids[b])
  }

  /** The keys a batch draft can carry: the initial ones, the sequence, and the targets of the entries in use. */
  lemma {:induction false} BatchKeys(records: seq<Row>, mapping: seq<(string, string)>, scope: Option<string>, lastMax: int,
                                     j: nat, k: string)
    requires j < |Batch(records, mapping, scope, lastMax)|
    ensures k in Batch(records, mapping, scope, lastMax)[j] ==>
      k in {"folderId", "priority", "sequence"} || exists i :: 0 <= i < |EntriesFor(mapping)| && EntriesFor(mapping)[i].1 == k
  {
    var n := |records| - 1;
    var prev := Batch(records[..n], mapping, scope, lastMax);
    if k !in Batch(records, mapping, scope, lastMax)[j] {
    } else if j < |prev| {
      assert Batch(records, mapping, scope, lastMax)[j] == prev[j];
      BatchKeys(records[..n], mapping, scope, lastMax, j, k);
    } else if k != "sequence" {
      var d := MapRow(records[n], mapping, scope);
      assert Batch(records, mapping, scope, lastMax)[j] == WithSequence(d, lastMax + |prev| + 1);
      CopyMappedKeys(InitialDraft(scope), records[n], EntriesFor(mapping), k);
    }
  }

  /**
   * An import whose entries target only columns of the table and never the
   * id is not refused by createMany, given fresh generated ids: each row
   * is stored under its generated id.
   */
  lemma {:induction false} WellMappedImportAccepted(cases: map<string, TestCase>, columns: set<string>, records: seq<Row>,
                                                    mapping: seq<(string, string)>, scope: Option<string>, lastMax: int,
                                                    newIds: seq<string>)
    requires |records| <= |newIds|
    requires {"folderId", "priority", "sequence"} <= columns
    requires forall i :: 0 <= i < |EntriesFor(mapping)| ==> EntriesFor(mapping)[i].1 in columns && EntriesFor(mapping)[i].1 != "id"
    requires forall i, j :: 0 <= i < j < |newIds| ==> newIds[i] != newIds[j]
    requires forall i :: 0 <= i < |newIds| ==> newIds[i] !in cases
    ensures var batch := Batch(records, mapping, scope, lastMax);
      !BatchRejected(cases, columns, batch, BatchIds(batch, newIds))
      && BatchIds(batch, newIds) == newIds[..|batch|]
  {
    var batch := Batch(records, mapping, scope, lastMax);
    forall j, k | 0 <= j < |batch| && k in batch[j] ensures k in columns && k != "id" {
      BatchKeys(records, mapping, scope, lastMax, j, k);
    }
    var ids := BatchIds(batch, newIds);
    forall j | 0 <= j < |batch| ensures ids[j] == newIds[j] {
      BatchKeys(records, mapping, scope, lastMax, j, "id");
    }
  }

  /** Without a mapping the import is never refused when the table has the whitelisted columns. */
  lemma {:induction false} DefaultImportAccepted(cases: map<string, TestCase>, columns: set<string>, records: seq<Row>,
                                                 scope: Option<string>, lastMax: int, newIds: seq<string>)
    requires |records| <= |newIds|
    requires {"folderId", "priority", "sequence"} <= columns
    requires forall i :: 0 <= i < |DbFields| ==> DbFields[i] in columns
    requires forall i, j :: 0 <= i < j < |newIds| ==> newIds[i] != newIds[j]
    requires forall i :: 0 <= i < |newIds| ==> newIds[i] !in cases
    ensures var batch := Batch(records, [], scope, lastMax);
      !BatchRejected(cases, columns, batch, BatchIds(batch, newIds))
  {
    assert EntriesFor([]) == WhitelistMapping();
    WellMappedImportAccepted(cases, columns, records, [], scope, lastMax, newIds);
  }

  /** A mapping onto the name of no column makes createMany refuse the batch. */
  lemma {:induction false} UnknownTargetRejected(cases: map<string, TestCase>, columns: set<string>, records: seq<Row>,
                                                 mapping: seq<(string, string)>, scope: Option<string>, lastMax: int,
                                                 newIds: seq<string>, i: nat, e: nat)
    requires |records| <= |newIds|
    requires i < |records| && e < |mapping| && mapping[e].1 !in columns
    requires CellTruthy(records[i], mapping[e].0) && HasTitle(MapRow(records[i], mapping, scope))
    ensures var batch := Batch(records, mapping, scope, lastMax);
      BatchRejected(cases, columns, batch, BatchIds(batch, newIds))
  {
    var batch := Batch(records, mapping, scope, lastMax);
    var d := MapRow(records[i], mapping, scope);
    var f := mapping[e].1;
    assert EntriesFor(mapping) == mapping;
    LastCellSome(records[i], mapping, e, f);
    CopyMappedField(InitialDraft(scope), records[i], mapping, f);
    assert f in d;
    var j := BatchIndexOf(records, mapping, scope, lastMax, i);
    assert f in batch[j];
  }

  /** A field targeted by an entry whose cell is truthy receives some cell. */
  lemma {:induction false} LastCellSome(row: Row, mapping: seq<(string, string)>, e: nat, field: string)
    requires e < |mapping| && mapping[e].1 == field && CellTruthy(row, mapping[e].0)
    ensures LastCell(row, mapping, field).Some?
  {
    var n := |mapping| - 1;
    if !(mapping[n].1 == field && CellTruthy(row, mapping[n].0)) {
      assert e < n;
      assert mapping[..n][e] == mapping[e];
      LastCellSome(row, mapping[..n], e, field);
    }
  }

  /** A titled row has a place in the batch, where its draft appears with its sequence. */
  lemma {:induction false} BatchIndexOf(records: seq<Row>, mapping: seq<(string, string)>, scope: Option<string>, lastMax: int,
                                        i: nat) returns (j: nat)
    requires i < |records| && HasTitle(MapRow(records[i], mapping, scope))
    ensures j < |Batch(records, mapping, scope, lastMax)|
    ensures Batch(records, mapping, scope, lastMax)[j] == WithSequence(MapRow(records[i], mapping, scope), lastMax + j + 1)
  {
    var n := |records| - 1;
    var prev := Batch(records[..n], mapping, scope, lastMax);
    if i < n {
      assert records[..n][i] == records[i];
      j := BatchIndexOf(records[..n], mapping, scope, lastMax, i);
      assert Batch(records, mapping, scope, lastMax)[j] == prev[j];
    } else {
      j := |prev|;
    }
  }

  /** A stored batch row sits under the id the mapping supplied, or else under its generated id. */
  lemma {:induction false} ImportedRowsStored(cases: map<string, TestCase>, columns: set<string>, batch: seq<Draft>,
                                              newIds: seq<string>, j: nat)
    requires j < |batch| <= |newIds|
    requires !BatchRejected(cases, columns, batch, BatchIds(batch, newIds))
    ensures var ids := BatchIds(batch, newIds);
      RowId(batch[j], newIds[j]) in InsertBatch(cases, ids, batch)
      && InsertBatch(cases, ids, batch)[RowId(batch[j], newIds[j])] == ToTestCase(RowId(batch[j], newIds[j]), batch[j])
    ensures StrField(batch[j], "id").Some? ==> RowId(batch[j], newIds[j]) == StrField(batch[j], "id").value
  {
    var ids := BatchIds(batch, newIds);
    InsertBatchNewRows(cases, ids, batch, j);
  }

  /** The store's invariant: rows are keyed by their id and plan items refer to existing cases. */
  ghost predicate ValidStore(cases: map<string, TestCase>, planItems: seq<PlanItem>) {
    (forall k :: k in cases ==> cases[k].id == k)
    && (forall i :: 0 <= i < |planItems| ==> planItems[i].testCaseId in cases)
  }

  /** The loop invariant of getTestCases after the keys in `done` were visited. */
  ghost predicate ListedSoFar(cases: map<string, TestCase>, done: set<string>, where: Option<string>, r: seq<TestCase>) {
    SortedBySequence(r)
    && (forall i :: 0 <= i < |r| ==> r[i].id in done && r[i].id in cases && cases[r[i].id] == r[i] && Listed(where, r[i]))
    && (forall k :: k in done && k in cases && Listed(where, cases[k]) ==> cases[k] in r)
    && (forall i, j :: 0 <= i < j < |r| ==> r[i].id != r[j].id)
  }

  lemma {:induction false} ListStepListed(cases: map<string, TestCase>, done: set<string>, where: Option<string>,
                                          r: seq<TestCase>, k: string, p: nat)
    requires forall k :: k in cases ==> cases[k].id == k
    requires ListedSoFar(cases, done, where, r)
    requires k in cases && k !in done && Listed(where, cases[k])
    requires p == InsertionPoint(r, cases[k])
    ensures ListedSoFar(cases, done + {k}, where, r[..p] + [cases[k]] + r[p..])
  {
    var c := cases[k];
    var out := r[..p] + [c] + r[p..];
    InsertKeepsSorted(r, c, p);
    InsertMembers(r, c, p);
    assert forall i :: 0 <= i < |r| ==> r[i].id != c.id;
    InsertKeepsIdsDistinct(r, c, p);
    forall i | 0 <= i < |out|
      ensures out[i].id in done + {k} && out[i].id in cases && cases[out[i].id] == out[i] && Listed(where, out[i])
    {
      assert out[i] in r || out[i] == c by { assert out[i] in out; }
    }
  }

  lemma {:induction false} ListStepSkipped(cases: map<string, TestCase>, done: set<string>, where: Option<string>,
                                           r: seq<TestCase>, k: string)
    requires ListedSoFar(cases, done, where, r)
    requires k in cases && !Listed(where, cases[k])
    ensures ListedSoFar(cases, done + {k}, where, r)
  {
  }

  class Store {
    var cases: map<string, TestCase>
    var planItems: seq<PlanItem>

    ghost predicate Valid()
      reads this
    {
      ValidStore(cases, planItems)
    }

    constructor (cases: map<string, TestCase>, planItems: seq<PlanItem>)
      requires ValidStore(cases, planItems)
      ensures Valid() && this.cases == cases && this.planItems == planItems
    {
      this.cases := cases;
      this.planItems := planItems;
    }

    /** `findFirst({ where: { folderId }, orderBy: { sequence: 'desc' } })?.sequence || 0`. */
    method LastSequence(scope: Option<string>) returns (m: int)
      ensures IsLastSequence(cases, scope, m)
    {
      m := 0;
      var found := false;
      var keys := cases.Keys;
      while keys != {}
        invariant keys <= cases.Keys
        invariant forall k :: k in cases.Keys - keys && cases[k].folderId == scope ==> cases[k].sequence <= m
        invariant found ==> exists k :: k in cases.Keys - keys && cases[k].folderId == scope && cases[k].sequence == m
        invariant !found ==> m == 0 && forall k :: k in cases.Keys - keys ==> cases[k].folderId != scope
        decreases keys
      {
        var k :| k in keys;
        keys := keys - {k};
        if cases[k].folderId == scope && (!found || cases[k].sequence > m) {
          m := cases[k].sequence;
          found := true;
        }
      }
    }

    /** getTestCases: the listed cases, each once, in ascending sequence order. */
    method GetTestCases(folderId: QueryValue) returns (r: seq<TestCase>)
      requires Valid()
      ensures SortedBySequence(r)
      ensures forall i :: 0 <= i < |r| ==> r[i].id in cases && cases[r[i].id] == r[i] && Listed(FolderWhere(folderId), r[i])
      ensures forall k :: k in cases && Listed(FolderWhere(folderId), cases[k]) ==> cases[k] in r
      ensures forall i, j :: 0 <= i < j < |r| ==> r[i].id != r[j].id
    {
      var where := FolderWhere(folderId);
      r := [];
      var keys := cases.Keys;
      while keys != {}
        invariant keys <= cases.Keys
        invariant ListedSoFar(cases, cases.Keys - keys, where, r)
        decreases keys
      {
        var k :| k in keys;
        ghost var done := cases.Keys - keys;
        keys := keys - {k};
        assert cases.Keys - keys == done + {k};
        var c := cases[k];
        if Listed(where, c) {
          var p := InsertionPoint(r, c);
          ListStepListed(cases, done, where, r, k, p);
          r := r[..p] + [c] + r[p..];
        } else {
          ListStepSkipped(cases, done, where, r, k);
        }
      }
    }

    /** createTestCase: a truthy title is required; the case is appended to its folder. */
    method CreateTestCase(body: CreateBody, newId: string) returns (r: Reply)
      requires Valid() && newId !in cases
      modifies this
      ensures Valid() && planItems == old(planItems)
      ensures Falsy(body.title) ==> r == Reply(400, false, Some(TitleRequired), None) && cases == old(cases)
      ensures !Falsy(body.title) ==>
        r.status == 201 && r.success && r.data.Some?
        && IsLastSequence(old(cases), Scope(body.folderId), r.data.value.sequence - 1)
        && r.data.value == NewTestCase(newId, body, r.data.value.sequence)
        && cases == old(cases)[newId := r.data.value]
    {
      if Falsy(body.title) {
        return Reply(400, false, Some(TitleRequired), None);
      }
      var last := LastSequence(Scope(body.folderId));
      var testCase := NewTestCase(newId, body, last + 1);
      cases := cases[newId := testCase];
      r := Reply(201, true, None, Some(testCase));
    }

    /**
     * importTestCases: per-row failures, then one createMany of the passing
     * rows, which the database refuses as a whole (answered 500) when a key
     * names no column of `columns` or an id clashes.
     */
    method ImportTestCases(hasFile: bool, folderId: Option<string>, mapping: seq<(string, string)>,
                           records: seq<Row>, newIds: seq<string>, columns: set<string>) returns (r: ImportReply)
      requires Valid()
      requires |records| <= |newIds|
      modifies this
      ensures Valid() && planItems == old(planItems)
      ensures !hasFile ==> r == ImportRejected(400, CsvFileRequired) && cases == old(cases)
      ensures hasFile ==> exists m :: (
        IsLastSequence(old(cases), Scope(folderId), m) &&
        var batch := Batch(records, mapping, Scope(folderId), m);
        var ids := BatchIds(batch, newIds);
        if BatchRejected(old(cases), columns, batch, ids) then
          r == ImportRejected(500, CsvImportFailed) && cases == old(cases)
        else
          r == Imported(ImportReport(|batch|, |Failures(records, mapping, Scope(folderId))|,
                                     Failures(records, mapping, Scope(folderId))))
          && cases == InsertBatch(old(cases), ids, batch))
    {
      if !hasFile {
        return ImportRejected(400, CsvFileRequired);
      }
      var scope := Scope(folderId);
      var last := LastSequence(scope);
      var report, toCreate := ImportRows(records, mapping, scope, last);
      CountsAddUp(records, mapping, scope, last);
      var ids := BatchIds(toCreate, newIds);
      if BatchRejected(cases, columns, toCreate, ids) {
        r := ImportRejected(500, CsvImportFailed);
      } else {
        InsertBatchKeyed(cases, ids, toCreate);
        if |toCreate| > 0 {
          cases := InsertBatch(cases, ids, toCreate);
        }
        r := Imported(report);
      }
      assert IsLastSequence(old(cases), scope, last);
    }

    /** updateTestCase: 404 for a missing id, otherwise only the content fields change. */
    method UpdateTestCase(id: string, body: UpdateBody) returns (r: Reply)
      requires Valid()
      modifies this
      ensures Valid() && planItems == old(planItems)
      ensures id !in old(cases) ==> r == Reply(404, false, Some(CaseNotFound), None) && cases == old(cases)
      ensures id in old(cases) ==>
        r == Reply(200, true, None, Some(Patch(old(cases)[id], body)))
        && cases == old(cases)[id := Patch(old(cases)[id], body)]
    {
      if id !in cases {
        return Reply(404, false, Some(CaseNotFound), None);
      }
      var updated := Patch(cases[id], body);
      cases := cases[id := updated];
      r := Reply(200, true, None, Some(updated));
    }

    /** deleteTestCase: 404 for a missing id, otherwise the case and every plan item naming it go. */
    method DeleteTestCase(id: string) returns (r: Reply)
      requires Valid()
      modifies this
      ensures Valid()
      ensures id !in old(cases) ==>
        r == Reply(404, false, Some(CaseNotFound), None) && cases == old(cases) && planItems == old(planItems)
      ensures id in old(cases) ==>
        r == Reply(200, true, Some(CaseDeleted), None) && cases == old(cases) - {id}
        && planItems == WithoutCase(old(planItems), id)
    {
      if id !in cases {
        return Reply(404, false, Some(CaseNotFound), None);
      }
      planItems := WithoutCase(planItems, id);
      cases := cases - {id};
      r := Reply(200, true, Some(CaseDeleted), None);
    }
  }
}
