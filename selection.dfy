/** Toggling one id in a selection held as a JavaScript `Set`, as both plan pages do. */
module Selection {
  import opened JsSet

  /** `rows.map(r => r.id)`: the ids of the rows, in order. */
  function IdsOf<T>(rows: seq<T>, id: T -> string): (r: seq<string>)
    ensures |r| == |rows| && forall i :: 0 <= i < |rows| ==> r[i] == id(rows[i])
  {
    seq(|rows|, i requires 0 <= i < |rows| => id(rows[i]))
  }

  /** `has(id) ? delete(id) : add(id)` on a copy of the selection. */
  function Toggle(s: seq<string>, id: string): (r: seq<string>)
    requires Distinct(s)
    ensures Distinct(r)
  {
    if id in s then Delete(s, id) else Add(s, id)
  }

  /** Toggling flips the membership of that id and of no other. */
  lemma {:induction false} ToggleFlipsOne(s: seq<string>, id: string)
    requires Distinct(s)
    ensures id in Toggle(s, id) <==> id !in s
    ensures forall y :: y != id ==> (y in Toggle(s, id) <==> y in s)
    ensures |Toggle(s, id)| == if id in s then |s| - 1 else |s| + 1
  {
  }

  /**
   * Toggling twice restores the members and the size; it restores the order
   * too when the id was not selected, while a removed id comes back last.
   */
  lemma {:induction false} ToggleTwice(s: seq<string>, id: string)
    requires Distinct(s)
    ensures forall y :: y in Toggle(Toggle(s, id), id) <==> y in s
    ensures |Toggle(Toggle(s, id), id)| == |s|
    ensures id !in s ==> Toggle(Toggle(s, id), id) == s
    ensures id in s ==> Toggle(Toggle(s, id), id) == Delete(s, id) + [id]
  {
    ToggleFlipsOne(s, id);
    ToggleFlipsOne(Toggle(s, id), id);
    if id !in s {
      DeleteLast(s, id);
    }
  }

  /** Deleting the element just added gives back the set before. */
  lemma {:induction false} DeleteLast(s: seq<string>, id: string)
    requires Distinct(s) && id !in s
    ensures Delete(s + [id], id) == s
    decreases |s|
  {
    if s != [] {
      assert (s + [id])[0] == s[0] && (s + [id])[1..] == s[1..] + [id];
      assert Distinct(s[1..]);
      DeleteLast(s[1..], id);
      assert [s[0]] + s[1..] == s;
    } else {
      assert [id][1..] == [];
    }
  }
}
