/**
 * The zod building blocks the request schemas are made of, as predicates on
 * the JSON value of one field, and the object parse that keeps only the keys
 * a schema declares. Lengths are counted in characters.
 */
module ZodFields {
  import opened JsValue

  /** `z.string().min(n)`. */
  predicate MinString(v: Value, n: nat) {
    v.Str? && |v.s| >= n
  }

  /** `z.string().optional()`. */
  predicate OptString(v: Value) {
    v.Undefined? || v.Str?
  }

  /** `z.string().optional().nullable()`. */
  predicate OptNullString(v: Value) {
    v.Undefined? || v.Null? || v.Str?
  }

  /** `z.string().min(n).optional()`. */
  predicate OptMinString(v: Value, n: nat) {
    v.Undefined? || MinString(v, n)
  }

  /** `z.enum(options)`. */
  predicate EnumOf(v: Value, options: seq<string>) {
    v.Str? && v.s in options
  }

  /** `z.enum(options).optional()`. */
  predicate OptEnumOf(v: Value, options: seq<string>) {
    v.Undefined? || EnumOf(v, options)
  }

  /** `z.string().email()`; what counts as an e-mail address is left to `isEmail`. */
  predicate Email(v: Value, isEmail: string -> bool) {
    v.Str? && isEmail(v.s)
  }

  /** `z.array(z.string().min(1)).min(n)`. */
  predicate IdList(v: Value, n: nat) {
    v.Arr? && |v.items| >= n && forall i :: 0 <= i < |v.items| ==> MinString(v.items[i], 1)
  }

  /** `z.array(z.string().min(1)).optional()`. */
  predicate OptIdList(v: Value) {
    v.Undefined? || IdList(v, 0)
  }

  /** The ids in a list that `IdList` accepts. */
  function Ids(v: Value): (r: seq<string>)
    requires IdList(v, 0)
    ensures |r| == |v.items|
    ensures forall i :: 0 <= i < |r| ==> v.items[i] == Str(r[i]) && r[i] != ""
  {
    seq(|v.items|, i requires 0 <= i < |v.items| => v.items[i].s)
  }

  /** The JSON list of the given strings. */
  function StrList(ids: seq<string>): (r: Value)
    ensures r.Arr? && |r.items| == |ids|
    ensures (forall i :: 0 <= i < |ids| ==> ids[i] != "") ==> IdList(r, 0) && Ids(r) == ids
  {
    Arr(seq(|ids|, i requires 0 <= i < |ids| => Str(ids[i])))
  }

  /** A request body parsed from JSON: no key holds `undefined`. */
  predicate FromJson(b: Value) {
    b.Obj? ==> forall k :: k in b.fields ==> !b.fields[k].Undefined?
  }

  /**
   * The value a successful `z.object(shape).parse` returns: the same object
   * with only the declared keys that were present.
   */
  function Strip(v: Value, keys: set<string>): (r: Value)
    requires v.Obj?
    ensures r.Obj?
    ensures forall k :: HasKey(r, k) <==> HasKey(v, k) && k in keys
    ensures forall k :: k in keys ==> Get(r, k) == Get(v, k)
  {
    Obj(map k | k in v.fields && k in keys :: v.fields[k])
  }

  /** Parsing the parsed value again changes nothing. */
  lemma {:induction false} StripIdempotent(v: Value, keys: set<string>)
    requires v.Obj?
    ensures Strip(Strip(v, keys), keys) == Strip(v, keys)
  {
    var once := Strip(v, keys);
    assert Strip(once, keys).fields == once.fields;
  }
}
