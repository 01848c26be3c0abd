/**
 * The getters the ObjectFormat, StringFormat and BooleanFormat property
 * decorators install. Each reads a raw value (a truthy value stored for
 * the field's name in the async-local context wins over the field's
 * transform of the logger data), replaces files by placeholders and
 * converts. The setters the decorators install discard what is assigned,
 * so the fields are computed and nothing can be stored in them.
 */
module FieldFormats {
  import opened JsValues
  import opened FileReplace

  /** A getter either yields a value or throws. */
  datatype Got = Val(v: Value) | Thrown

  /** `Logger.globalGet(key) || transform(this._data)`. */
  function Raw(override: Value, transformed: Value): (r: Value)
    ensures Truthy(override) ==> r == override
    ensures !Truthy(override) ==> r == transformed
  {
    Or(override, transformed)
  }

  /**
   * ObjectFormat's getter: undefined stays undefined, a non-object is
   * wrapped as `{root: value}`, an object without keys becomes undefined
   * and any other object is returned as it is; `Object.keys(null)` throws.
   */
  function ObjectFormat(override: Value, transformed: Value): (g: Got)
    ensures var value := ReplaceFile(Raw(override, transformed));
      && (g.Thrown? <==> value.Null?)
      && (value.Undefined? ==> g == Val(Undefined))
      && (TypeOf(value) != "object" && !value.Undefined? ==> g == Val(Obj(map["root" := value])))
      && (TypeOf(value) == "object" && !value.Null? ==> g == Val(if NoKeys(value) then Undefined else value))
  {
    var value := ReplaceFile(Raw(override, transformed));
    if value.Undefined? then Val(value)
    else if TypeOf(value) != "object" then Val(Obj(map["root" := value]))
    else if value.Null? then Thrown
    else if NoKeys(value) then Val(Undefined)
    else Val(value)
  }

  /** StringFormat's getter: undefined stays undefined, anything else is `String(value)`. */
  function StringFormat(override: Value, transformed: Value): (g: Got)
    ensures var value := ReplaceFile(Raw(override, transformed));
      g == Val(if value.Undefined? then Undefined else Str(JsString(value)))
  {
    var value := ReplaceFile(Raw(override, transformed));
    if value.Undefined? then Val(value) else Val(Str(JsString(value)))
  }

  /** BooleanFormat's getter: undefined stays undefined, anything else is `Boolean(value)`. */
  function BooleanFormat(override: Value, transformed: Value): (g: Got)
    ensures var value := ReplaceFile(Raw(override, transformed));
      g == Val(if value.Undefined? then Undefined else Bool(Truthy(value)))
  {
    var value := ReplaceFile(Raw(override, transformed));
    if value.Undefined? then Val(value) else Val(Bool(Truthy(value)))
  }

  /** What an ObjectFormat field yields is undefined or an object with at least one key. */
  lemma ObjectFormatShape(override: Value, transformed: Value)
    requires ObjectFormat(override, transformed).Val?
    ensures var v := ObjectFormat(override, transformed).v;
      v.Undefined? || ((v.Obj? || v.Arr?) && !NoKeys(v))
  {
    var value := ReplaceFile(Raw(override, transformed));
    if TypeOf(value) != "object" && !value.Undefined? {
      assert "root" in Spread(Obj(map["root" := value]));
    }
  }

  /** Reading an ObjectFormat result back through the getter gives it again. */
  lemma ObjectFormatFixedPoint(override: Value, transformed: Value)
    requires ObjectFormat(override, transformed).Val?
    ensures ObjectFormat(Undefined, ObjectFormat(override, transformed).v) == ObjectFormat(override, transformed)
  {
    ObjectFormatShape(override, transformed);
  }

  /** Reading a StringFormat result back through the getter gives it again. */
  lemma StringFormatFixedPoint(override: Value, transformed: Value)
    ensures StringFormat(Undefined, StringFormat(override, transformed).v) == StringFormat(override, transformed)
  {
  }

  /** A truthy override decides every getter whatever the transform yields. */
  lemma OverrideWins(override: Value, t1: Value, t2: Value)
    requires Truthy(override)
    ensures ObjectFormat(override, t1) == ObjectFormat(override, t2)
    ensures StringFormat(override, t1) == StringFormat(override, t2)
    ensures BooleanFormat(override, t1) == BooleanFormat(override, t2)
  {
  }

  /** A falsy override is ignored: the getters read the transform. */
  lemma FalsyOverrideIgnored(override: Value, t: Value)
    requires !Truthy(override)
    ensures ObjectFormat(override, t) == ObjectFormat(Undefined, t)
    ensures StringFormat(override, t) == StringFormat(Undefined, t)
    ensures BooleanFormat(override, t) == BooleanFormat(Undefined, t)
  {
  }

  /** Files, streams and buffers print as their placeholder and are true. */
  lemma FileLikeConversions(v: Value)
    requires IsFileLike(v)
    ensures StringFormat(Undefined, v) == Val(ReplaceFile(v))
    ensures BooleanFormat(Undefined, v) == Val(Bool(true))
    ensures ObjectFormat(Undefined, v) == Val(Obj(map["root" := ReplaceFile(v)]))
  {
  }

  /** A primitive goes under `root`; a buffer is wrapped as its placeholder. */
  lemma ObjectFormatWrapsPrimitives(s: string, text: string)
    ensures ObjectFormat(Undefined, Str(s)) == Val(Obj(map["root" := Str(s)]))
    ensures ObjectFormat(Undefined, BufferObj(text)) == Val(Obj(map["root" := Str("<buffer>")]))
    ensures ObjectFormat(Undefined, Obj(map[])) == Val(Undefined)
    ensures ObjectFormat(Undefined, Null) == Thrown
  {
  }
}
