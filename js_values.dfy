/**
 * The JavaScript values the logger handles, with the conversions it relies
 * on: truthiness (`||`, `?:`), `typeof`, `String(value)`, own keys and the
 * object spread `{...value}`.
 */
module JsValues {
  import opened JsText

  /**
   * A JavaScript value. Numbers are integers; objects are their own
   * enumerable properties; arrays are their elements. FormData, Stream and
   * Buffer are the three classes the logger replaces by placeholders
   * (a FormData object of the form-data package is also a Stream); a
   * Buffer carries its text.
   */
  datatype Value =
    | Undefined
    | Null
    | Str(s: string)
    | Num(n: int)
    | Bool(b: bool)
    | Obj(fields: map<string, Value>)
    | Arr(items: seq<Value>)
    | FormDataObj
    | StreamObj
    | BufferObj(text: string)

  /** `Boolean(v)`: the falsy values are undefined, null, "", 0 and false. */
  predicate Truthy(v: Value)
  {
    match v
    case Undefined => false
    case Null => false
    case Str(s) => s != ""
    case Num(n) => n != 0
    case Bool(b) => b
    case _ => true
  }

  /** `a || b`. */
  function Or(a: Value, b: Value): (r: Value)
    ensures Truthy(a) ==> r == a
    ensures !Truthy(a) ==> r == b
  {
    if Truthy(a) then a else b
  }

  /** `typeof v` (functions and symbols are not modelled). */
  function TypeOf(v: Value): (t: string)
    ensures t == "object" <==> !(v.Undefined? || v.Str? || v.Num? || v.Bool?)
  {
    match v
    case Undefined => "undefined"
    case Str(_) => "string"
    case Num(_) => "number"
    case Bool(_) => "boolean"
    case _ => "object"
  }

  /**
   * `String(v)`. An array joins its elements' texts with "," (null and
   * undefined elements give ""), a plain object and a stream print as
   * "[object Object]", a FormData object as "[object FormData]".
   */
  function JsString(v: Value): (s: string)
    decreases v, 1, 0
  {
    match v
    case Undefined => "undefined"
    case Null => "null"
    case Str(s) => s
    case Num(n) => IntToString(n)
    case Bool(b) => if b then "true" else "false"
    case Obj(_) => "[object Object]"
    case Arr(items) => Join(v, 0)
    case FormDataObj => "[object FormData]"
    case StreamObj => "[object Object]"
    case BufferObj(text) => text
  }

  /** `items.slice(i).join(",")` for the array a. */
  function Join(a: Value, i: nat): (s: string)
    requires a.Arr? && i <= |a.items|
    decreases a, 0, |a.items| - i
  {
    if i == |a.items| then ""
    else
      assert a.items[i] in a.items;
      var e := a.items[i];
      var head := if e.Undefined? || e.Null? then "" else JsString(e);
      if i + 1 == |a.items| then head else head + "," + Join(a, i + 1)
  }

  /** An array's (or a string's) own keys: its indices in decimal. */
  function IndexMap(items: seq<Value>): (m: map<string, Value>)
    ensures m == map[] <==> items == []
    ensures forall i :: 0 <= i < |items| ==> NatToString(i) in m && m[NatToString(i)] == items[i]
    ensures forall k :: k in m ==> exists i :: 0 <= i < |items| && k == NatToString(i)
  {
    forall i: nat, j: nat | NatToString(i) == NatToString(j) ensures i == j {
      NatToStringInjective(i, j);
    }
    var m := map i | 0 <= i < |items| :: NatToString(i) := items[i];
    assert items != [] ==> NatToString(0) in m;
    m
  }

  /** The properties `{...v}` copies: none from null, undefined, numbers and booleans. */
  function Spread(v: Value): (m: map<string, Value>)
    ensures v.Obj? ==> m == v.fields
    ensures v.Arr? ==> m == IndexMap(v.items)
    ensures !(v.Obj? || v.Arr? || v.Str?) ==> m == map[]
  {
    match v
    case Obj(fields) => fields
    case Arr(items) => IndexMap(items)
    case Str(s) => IndexMap(seq(|s|, i requires 0 <= i < |s| => Str([s[i]])))
    case _ => map[]
  }

  /** Whether `Object.keys(v).length` is 0, for a value other than null and undefined. */
  predicate NoKeys(v: Value)
  {
    Spread(v) == map[]
  }

  /** `v?.prop`, read from an object's own properties. */
  function Member(v: Value, prop: string): (r: Value)
    ensures v.Obj? && prop in v.fields ==> r == v.fields[prop]
    ensures !(v.Obj? && prop in v.fields) ==> r == Undefined
  {
    if v.Obj? && prop in v.fields then v.fields[prop] else Undefined
  }

  /** `{...a, ...b}`: every key of b with b's value, the other keys of a with a's. */
  function Merge(a: Value, b: Value): (r: Value)
    ensures r.Obj? && r.fields.Keys == Spread(a).Keys + Spread(b).Keys
    ensures forall k :: k in Spread(b) ==> r.fields[k] == Spread(b)[k]
    ensures forall k :: k in Spread(a) && k !in Spread(b) ==> r.fields[k] == Spread(a)[k]
  {
    Obj(Spread(a) + Spread(b))
  }

  /** Merging into an unset value copies the argument's properties. */
  lemma MergeIntoUndefined(b: Value)
    ensures Merge(Undefined, b) == Obj(Spread(b))
  {
    assert map[] + Spread(b) == Spread(b);
  }

  /** Merging the same object twice changes nothing the first merge did not. */
  lemma MergeIdempotent(a: Value, b: Value)
    ensures Merge(Merge(a, b), b) == Merge(a, b)
  {
    var once := Spread(a) + Spread(b);
    assert Spread(Obj(once)) == once;
    assert once + Spread(b) == once;
  }
}
