/**
 * JavaScript values as they travel through the application: parsed JSON
 * request bodies, response bodies and thrown values. Numbers are integers.
 */
module JsValue {
  import opened JsString

  datatype Value =
    | Undefined
    | Null
    | Bool(b: bool)
    | Num(n: int)
    | Str(s: string)
    | Arr(items: seq<Value>)
    | Obj(fields: map<string, Value>)

  /** Property read `v[key]`: a missing key, or a non-object, reads as `undefined`. */
  function Get(v: Value, key: string): (r: Value)
    ensures v.Obj? && key in v.fields ==> r == v.fields[key]
    ensures !(v.Obj? && key in v.fields) ==> r == Undefined
  {
    if v.Obj? && key in v.fields then v.fields[key] else Undefined
  }

  /** `typeof v === 'object' && v !== null`. */
  predicate IsObject(v: Value) {
    v.Arr? || v.Obj?
  }

  /** `key in v` for a named (non-index) key: only plain objects carry named keys here. */
  predicate HasKey(v: Value, key: string) {
    v.Obj? && key in v.fields
  }

  /** The object `JSON.stringify` sends: keys holding `undefined` are left out. */
  function OnTheWire(v: Value): (r: Value)
    requires v.Obj?
    ensures r.Obj?
    ensures forall k :: HasKey(r, k) <==> HasKey(v, k) && !Get(v, k).Undefined?
    ensures forall k :: HasKey(r, k) ==> Get(r, k) == Get(v, k)
  {
    Obj(map k | k in v.fields && !v.fields[k].Undefined? :: v.fields[k])
  }

  predicate Truthy(v: Value) {
    match v
    case Undefined => false
    case Null => false
    case Bool(b) => b
    case Num(n) => n != 0
    case Str(s) => s != ""
    case Arr(_) => true
    case Obj(_) => true
  }

  function IntToString(n: int): string {
    if n < 0 then "-" + NatToString(-n) else NatToString(n)
  }

  /** `String(v)`. Arrays join their elements with ",", writing null and undefined as "". */
  function ToJsString(v: Value): string
    decreases v, 1
  {
    match v
    case Undefined => "undefined"
    case Null => "null"
    case Bool(b) => if b then "true" else "false"
    case Num(n) => IntToString(n)
    case Str(s) => s
    case Arr(items) => ElementsToString(items, v)
    case Obj(_) => "[object Object]"
  }

  function ElementsToString(items: seq<Value>, whole: Value): string
    requires whole.Arr? && forall i :: 0 <= i < |items| ==> items[i] in whole.items
    decreases whole, 0, |items|
  {
    if items == [] then ""
    else
      var head := if items[0].Undefined? || items[0].Null? then "" else ToJsString(items[0]);
      if |items| == 1 then head else head + "," + ElementsToString(items[1..], whole)
  }

  /** `String(x)` of a string is the string itself, and of a number its decimal digits. */
  lemma {:induction false} ToJsStringOfNat(n: nat)
    ensures ToJsString(Num(n)) == NatToString(n)
    ensures forall s :: ToJsString(Str(s)) == s
  {
  }
}
