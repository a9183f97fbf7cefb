/** The dynamic JavaScript values the library inspects at run time (configs,
    query parameters, request bodies), with the conversions it relies on:
    `toString`, template-literal interpolation, `typeof`, truthiness,
    property lookup and `Object.entries`. Numbers are restricted to integers. */
module JsValues {
  import opened Wrappers
  import opened Text
  import opened Records

  datatype Value =
    | VUndefined
    | VNull
    | VBool(b: bool)
    | VInt(i: int)
    | VString(s: string)
    | VArray(items: seq<Value>)
      /** A plain object: its own enumerable properties in order. */
    | VObject(fields: Record<string, Value>)
      /** A function, carrying the source text its `toString` returns. */
    | VFunction(source: string)
      /** An iterator object such as `URLSearchParams.prototype.entries()`:
          it yields pairs but has no own enumerable properties. */
    | VIterator(pairs: seq<(string, string)>)

  predicate IsNil(v: Value) { v.VUndefined? || v.VNull? }

  /** `Is.Stringable`: not null or undefined (every other value has a
      callable `toString`). */
  predicate Stringable(v: Value) { !IsNil(v) }

  /** `v.toString()`; arrays join their items with "," and show null and
      undefined items as empty text. */
  function ToString(v: Value): string
    requires Stringable(v)
    decreases v
  {
    match v
    case VBool(b) => if b then "true" else "false"
    case VInt(i) => IntToString(i)
    case VString(s) => s
    case VArray(items) =>
      Join(seq(|items|, i requires 0 <= i < |items| =>
             if IsNil(items[i]) then "" else ToString(items[i])), ",")
    case VObject(_) => "[object Object]"
    case VFunction(src) => src
    case VIterator(_) => "[object URLSearchParams Iterator]"
  }

  /** `${v}` in a template literal. */
  function Interpolate(v: Value): string {
    match v
    case VUndefined => "undefined"
    case VNull => "null"
    case _ => ToString(v)
  }

  /** `typeof v`. */
  function TypeOf(v: Value): string {
    match v
    case VUndefined => "undefined"
    case VNull => "object"
    case VBool(_) => "boolean"
    case VInt(_) => "number"
    case VString(_) => "string"
    case VFunction(_) => "function"
    case _ => "object"
  }

  /** JavaScript truthiness. */
  predicate Truthy(v: Value) {
    match v
    case VUndefined => false
    case VNull => false
    case VBool(b) => b
    case VInt(i) => i != 0
    case VString(s) => s != ""
    case _ => true
  }

  /** `v && typeof v === "object"`. */
  predicate IsObject(v: Value) { Truthy(v) && TypeOf(v) == "object" }

  predicate IsString(v: Value) { v.VString? }

  predicate IsFunction(v: Value) { v.VFunction? }

  /** The property `k` of `v`, when present (`k in v`); only plain objects
      carry named properties in this model. */
  function Field(v: Value, k: string): Option<Value> {
    if v.VObject? then Get(v.fields, k) else None
  }

  /** `v.k`: the property, or undefined when it is missing. */
  function FieldOrUndefined(v: Value, k: string): Value {
    Field(v, k).GetOr(VUndefined)
  }

  /** `has(v, k, g)` of the guard library: `k` is present and `g` accepts its value. */
  predicate Has(v: Value, k: string, g: Value -> bool) {
    Field(v, k).Some? && g(Field(v, k).value)
  }

  /** Two values that agree on the property `k` agree on every test of it. */
  lemma HasSameField(w: Value, v: Value, k: string, g: Value -> bool)
    requires Field(w, k) == Field(v, k)
    ensures Has(w, k, g) == Has(v, k, g)
  {
  }

  /** `v.k = x` on a plain object. */
  function SetField(v: Value, k: string, x: Value): (r: Value)
    requires v.VObject?
    ensures r.VObject? && Field(r, k) == Some(x)
    ensures forall j :: j != k ==> Field(r, j) == Field(v, j)
  {
    GetSet(v.fields, k, x, k);
    forall j | j != k ensures Get(Set(v.fields, k, x), j) == Get(v.fields, j) {
      GetSet(v.fields, k, x, j);
    }
    VObject(Set(v.fields, k, x))
  }

  /** `Object.entries(v)`: own enumerable string-keyed properties. */
  function OwnEntries(v: Value): Record<string, Value> {
    match v
    case VObject(fields) => fields
    case VArray(items) => seq(|items|, i requires 0 <= i < |items| => (IntToString(i), items[i]))
    case VString(s) => seq(|s|, i requires 0 <= i < |s| => (IntToString(i), VString([s[i]])))
    case _ => []
  }
}
