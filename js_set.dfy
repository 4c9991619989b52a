/**
 * A JavaScript `Set<string>`: distinct elements kept in insertion order, so
 * that `Array.from(set)` is the sequence itself and `set.size` its length.
 */
module JsSet {

  predicate Distinct(s: seq<string>) {
    forall i, j :: 0 <= i < j < |s| ==> s[i] != s[j]
  }

  /** `set.add(x)`: appended at the end unless already present. */
  function Add(s: seq<string>, x: string): (r: seq<string>)
    requires Distinct(s)
    ensures Distinct(r)
    ensures forall y :: y in r <==> y in s || y == x
    ensures x in s ==> r == s
    ensures x !in s ==> r == s + [x]
  {
    if x in s then s else s + [x]
  }

  /** `set.delete(x)`: the other elements stay, in their order. */
  function Delete(s: seq<string>, x: string): (r: seq<string>)
    requires Distinct(s)
    ensures Distinct(r)
    ensures forall y :: y in r <==> y in s && y != x
    ensures x !in s ==> r == s
    ensures |r| == if x in s then |s| - 1 else |s|
  {
    if s == [] then []
    else if s[0] == x then
      assert x !in s[1..] by { assert forall j :: 0 < j < |s| ==> s[j] != s[0]; }
      Delete(s[1..], x)
    else
      var rest := Delete(s[1..], x);
      assert s[0] !in s[1..] by { assert forall j :: 0 < j < |s| ==> s[j] != s[0]; }
      assert s == [s[0]] + s[1..];
      [s[0]] + rest
  }

  /** `new Set(xs)`: the first occurrence of each element, in order. */
  function FromSeq(xs: seq<string>): (r: seq<string>)
    ensures Distinct(r)
    ensures forall y :: y in r <==> y in xs
    ensures |r| <= |xs|
    ensures Distinct(xs) ==> r == xs
  {
    if xs == [] then [] else
      var init := FromSeq(xs[..|xs| - 1]);
      var last := xs[|xs| - 1];
      assert xs == xs[..|xs| - 1] + [last];
      Add(init, last)
  }
}
