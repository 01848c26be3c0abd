/**
 * LoggerFormatter.format: a reduce over the property names of Format's
 * prototype that keeps a name unless it is "constructor", starts with "_"
 * or has an access list without the requested log type, and reads the
 * kept properties through their getters into a fresh object.
 */
module Formatter {
  import opened Basics
  import opened JsValues
  import opened LogData
  import opened FieldFormats
  import opened FormatTable

  /** An own property of Format's prototype: the constructor or a field's accessor. */
  datatype PropKey = ConstructorKey | AccessorKey(field: FormatField)

  function KeyName(k: PropKey): string
  {
    match k
    case ConstructorKey => "constructor"
    case AccessorKey(f) => Name(f)
  }

  lemma KeyNameInjective(a: PropKey, b: PropKey)
    requires KeyName(a) == KeyName(b)
    ensures a == b
  {
    match a
    case ConstructorKey =>
      if b.AccessorKey? { NamesArePlain(b.field); }
    case AccessorKey(f) =>
      NamesArePlain(f);
      if b.AccessorKey? {
        FieldNamedName(f);
        FieldNamedName(b.field);
      }
  }

  /**
   * `Object.getOwnPropertyNames(Format.prototype)`: the constructor, then
   * the accessors in the order the decorators define them, which is the
   * order the fields are declared in.
   */
  const PrototypeKeys: seq<PropKey> := [
    ConstructorKey, AccessorKey(level), AccessorKey(trace_id), AccessorKey(d_error),
    AccessorKey(d_success), AccessorKey(d_stack), AccessorKey(d_p_error), AccessorKey(d_p_success),
    AccessorKey(o_title), AccessorKey(o_message), AccessorKey(o_code), AccessorKey(u_id),
    AccessorKey(r_url), AccessorKey(r_res), AccessorKey(r_body), AccessorKey(r_query),
    AccessorKey(r_params), AccessorKey(r_code), AccessorKey(r_method), AccessorKey(r_headers),
    AccessorKey(r_runtime), AccessorKey(er_url), AccessorKey(er_res), AccessorKey(er_body),
    AccessorKey(er_query), AccessorKey(er_params), AccessorKey(er_code), AccessorKey(er_method),
    AccessorKey(er_headers), AccessorKey(er_runtime), AccessorKey(ea_queue), AccessorKey(ea_body),
    AccessorKey(ea_exchange), AccessorKey(ea_routing_key), AccessorKey(ea_runtime),
    AccessorKey(a_queue), AccessorKey(a_body), AccessorKey(a_exchange), AccessorKey(a_runtime)]

  /** The Access metadata stored for a key, if any. */
  function Metadata(k: PropKey): Option<seq<LogType>>
  {
    match k
    case ConstructorKey => None
    case AccessorKey(f) => Spec(f).access
  }

  /** `!metadata || metadata.includes(logtype)`. */
  predicate IsAccess(metadata: Option<seq<LogType>>, t: LogType)
  {
    metadata.None? || t in metadata.value
  }

  /** Neither "constructor" nor a name starting with "_". */
  predicate IsPlainName(name: string)
  {
    name != "constructor" && !(|name| > 0 && name[0] == '_')
  }

  /** No field is called "constructor" or starts with "_". */
  lemma NamesArePlain(f: FormatField)
    ensures IsPlainName(Name(f))
  {
    var n := Name(f);
    FieldNamedName(f);
    FieldNamedInitial(n);
    assert n != "constructor" by {
      assert "constructor"[0] == 'c';
    }
  }

  /** The reduce's test for keeping a key. */
  predicate Kept(k: PropKey, t: LogType)
  {
    IsPlainName(KeyName(k)) && IsAccess(Metadata(k), t)
  }

  /** `this[key]`: an accessor's getter (the constructor is never read). */
  function Getter(k: PropKey, ctx: Context): Got
  {
    match k
    case ConstructorKey => Val(Undefined)
    case AccessorKey(f) => FieldValue(f, ctx)
  }

  /** The reduce from acc over keys; a getter that throws aborts it. */
  function Reduce(keys: seq<PropKey>, t: LogType, ctx: Context, acc: map<string, Value>): Option<map<string, Value>>
    decreases |keys|
  {
    if keys == [] then Some(acc)
    else if !Kept(keys[0], t) then Reduce(keys[1..], t, ctx, acc)
    else if Getter(keys[0], ctx).Thrown? then None
    else Reduce(keys[1..], t, ctx, acc[KeyName(keys[0]) := Getter(keys[0], ctx).v])
  }

  /** `format(logtype)`: None when a getter throws. */
  function Format(t: LogType, ctx: Context): Option<map<string, Value>>
  {
    Reduce(PrototypeKeys, t, ctx, map[])
  }

  /** The names of the kept keys. */
  function KeptNames(keys: seq<PropKey>, t: LogType): set<string>
  {
    set k | k in keys && Kept(k, t) :: KeyName(k)
  }

  /** The constructor is never kept; an accessor is kept exactly when its access list admits t. */
  lemma KeptAccessor(f: FormatField, t: LogType)
    ensures !Kept(ConstructorKey, t)
    ensures Kept(AccessorKey(f), t) <==> IsAccess(Spec(f).access, t)
  {
    NamesArePlain(f);
  }

  /**
   * r is what a reduce over keys builds from acc: acc with the kept keys
   * added, each with its getter's value.
   */
  predicate Built(keys: seq<PropKey>, t: LogType, ctx: Context, acc: map<string, Value>, r: map<string, Value>)
  {
    && r.Keys == acc.Keys + KeptNames(keys, t)
    && (forall k :: k in keys && Kept(k, t) ==> KeyName(k) in r && Getter(k, ctx) == Val(r[KeyName(k)]))
    && (forall n :: n in acc && n !in KeptNames(keys, t) ==> r[n] == acc[n])
  }

  /** What a reduce that does not throw builds from acc. */
  lemma {:induction false} ReduceResult(keys: seq<PropKey>, t: LogType, ctx: Context, acc: map<string, Value>)
    requires Reduce(keys, t, ctx, acc).Some?
    ensures Built(keys, t, ctx, acc, Reduce(keys, t, ctx, acc).value)
    decreases |keys|
  {
    if keys != [] {
      var k0, rest := keys[0], keys[1..];
      assert keys == [k0] + rest;
      var r := Reduce(keys, t, ctx, acc).value;
      if !Kept(k0, t) {
        ReduceResult(rest, t, ctx, acc);
        SkipStep(k0, rest, t, ctx, acc, r);
      } else {
        var acc' := acc[KeyName(k0) := Getter(k0, ctx).v];
        ReduceResult(rest, t, ctx, acc');
        KeepStep(k0, rest, t, ctx, acc, r);
      }
    }
  }

  lemma SkipStep(k0: PropKey, rest: seq<PropKey>, t: LogType, ctx: Context, acc: map<string, Value>, r: map<string, Value>)
    requires !Kept(k0, t) && Built(rest, t, ctx, acc, r)
    ensures Built([k0] + rest, t, ctx, acc, r)
  {
    assert forall k :: k in [k0] + rest <==> k == k0 || k in rest;
    assert KeptNames([k0] + rest, t) == KeptNames(rest, t);
  }

  lemma KeepStep(k0: PropKey, rest: seq<PropKey>, t: LogType, ctx: Context, acc: map<string, Value>, r: map<string, Value>)
    requires Kept(k0, t) && Getter(k0, ctx).Val?
    requires Built(rest, t, ctx, acc[KeyName(k0) := Getter(k0, ctx).v], r)
    ensures Built([k0] + rest, t, ctx, acc, r)
  {
    var keys := [k0] + rest;
    var n0 := KeyName(k0);
    var acc' := acc[n0 := Getter(k0, ctx).v];
    assert forall k :: k in keys <==> k == k0 || k in rest;
    assert KeptNames(keys, t) == {n0} + KeptNames(rest, t);
    if n0 in KeptNames(rest, t) {
      var k' :| k' in rest && Kept(k', t) && KeyName(k') == n0;
      KeyNameInjective(k', k0);
    } else {
      assert r[n0] == acc'[n0];
    }
  }

  /** A reduce throws exactly when some kept key's getter throws. */
  lemma {:induction false} ReduceThrows(keys: seq<PropKey>, t: LogType, ctx: Context, acc: map<string, Value>)
    ensures Reduce(keys, t, ctx, acc).None? <==> exists k :: k in keys && Kept(k, t) && Getter(k, ctx).Thrown?
    decreases |keys|
  {
    if keys != [] {
      var k0, rest := keys[0], keys[1..];
      assert keys == [k0] + rest;
      assert forall k :: k in keys <==> k == k0 || k in rest;
      if !Kept(k0, t) {
        ReduceThrows(rest, t, ctx, acc);
      } else if Getter(k0, ctx).Val? {
        ReduceThrows(rest, t, ctx, acc[KeyName(k0) := Getter(k0, ctx).v]);
      }
    }
  }

  /** Every accessor is on the prototype. */
  lemma AccessorOnPrototype(f: FormatField)
    ensures AccessorKey(f) in PrototypeKeys
  {
  }

  lemma PrototypeKeysAre(k: PropKey)
    ensures k in PrototypeKeys
  {
    if k.AccessorKey? {
      AccessorOnPrototype(k.field);
    }
  }

  /** A reduce from {} over keys holding every accessor throws exactly when an admitted field's getter throws. */
  lemma ReduceAllThrows(keys: seq<PropKey>, t: LogType, ctx: Context)
    requires forall f :: AccessorKey(f) in keys
    ensures Reduce(keys, t, ctx, map[]).None? <==> exists f :: IsAccess(Spec(f).access, t) && FieldValue(f, ctx).Thrown?
  {
    ReduceThrows(keys, t, ctx, map[]);
    if Reduce(keys, t, ctx, map[]).None? {
      var k :| k in keys && Kept(k, t) && Getter(k, ctx).Thrown?;
      KeptAccessor(k.field, t);
      assert IsAccess(Spec(k.field).access, t) && FieldValue(k.field, ctx).Thrown?;
    } else {
      forall f | IsAccess(Spec(f).access, t) ensures FieldValue(f, ctx).Val? {
        KeptAccessor(f, t);
        assert Getter(AccessorKey(f), ctx) == FieldValue(f, ctx);
      }
    }
  }

  /** What a reduce from {} over keys holding every accessor builds. */
  lemma ReduceAllFields(keys: seq<PropKey>, t: LogType, ctx: Context)
    requires forall f :: AccessorKey(f) in keys
    requires Reduce(keys, t, ctx, map[]).Some?
    ensures var r := Reduce(keys, t, ctx, map[]).value;
      && (forall f :: Name(f) in r <==> IsAccess(Spec(f).access, t))
      && (forall f :: Name(f) in r ==> FieldValue(f, ctx) == Val(r[Name(f)]))
      && (forall n :: n in r ==> exists f :: Name(f) == n)
  {
    ReduceResult(keys, t, ctx, map[]);
    var r := Reduce(keys, t, ctx, map[]).value;
    assert r.Keys == KeptNames(keys, t);
    forall f | Name(f) in r ensures IsAccess(Spec(f).access, t) {
      var k :| k in keys && Kept(k, t) && KeyName(k) == Name(f);
      KeyNameInjective(k, AccessorKey(f));
      KeptAccessor(f, t);
    }
    forall f | IsAccess(Spec(f).access, t) ensures Name(f) in r && FieldValue(f, ctx) == Val(r[Name(f)]) {
      KeptAccessor(f, t);
      assert KeyName(AccessorKey(f)) == Name(f);
    }
    forall n | n in r ensures exists f :: Name(f) == n {
      var k :| k in keys && Kept(k, t) && KeyName(k) == n;
      KeptAccessor(level, t);
      assert Name(k.field) == n;
    }
  }

  /** `format(t)` throws exactly when the getter of a field admitted for t throws. */
  lemma FormatThrows(t: LogType, ctx: Context)
    ensures Format(t, ctx).None? <==> exists f :: IsAccess(Spec(f).access, t) && FieldValue(f, ctx).Thrown?
  {
    forall f ensures AccessorKey(f) in PrototypeKeys { AccessorOnPrototype(f); }
    ReduceAllThrows(PrototypeKeys, t, ctx);
  }

  /**
   * When `format(t)` does not throw, it holds exactly the fields whose
   * access list admits t, each with its getter's value, and nothing else.
   */
  lemma FormatFields(t: LogType, ctx: Context)
    requires Format(t, ctx).Some?
    ensures var r := Format(t, ctx).value;
      && (forall f :: Name(f) in r <==> IsAccess(Spec(f).access, t))
      && (forall f :: Name(f) in r ==> FieldValue(f, ctx) == Val(r[Name(f)]))
      && (forall n :: n in r ==> exists f :: Name(f) == n)
  {
    forall f ensures AccessorKey(f) in PrototypeKeys { AccessorOnPrototype(f); }
    ReduceAllFields(PrototypeKeys, t, ctx);
  }

  /**
   * A log of type O carries every field a log of any other type carries,
   * with the same values, and throws whenever the other throws.
   */
  lemma OSuperset(t: LogType, ctx: Context)
    ensures Format(t, ctx).None? ==> Format(LogTypeO, ctx).None?
    ensures Format(LogTypeO, ctx).Some? ==>
      && Format(t, ctx).Some?
      && Format(t, ctx).value.Keys <= Format(LogTypeO, ctx).value.Keys
      && (forall n :: n in Format(t, ctx).value ==> Format(t, ctx).value[n] == Format(LogTypeO, ctx).value[n])
  {
    forall f ensures IsAccess(Spec(f).access, t) ==> IsAccess(Spec(f).access, LogTypeO) {
      EveryAccessListHasO(f);
    }
    FormatThrows(t, ctx);
    FormatThrows(LogTypeO, ctx);
    if Format(LogTypeO, ctx).Some? {
      FormatFields(t, ctx);
      FormatFields(LogTypeO, ctx);
    }
  }

  /** The fields without an access list appear in every log type that does not throw. */
  lemma UnrestrictedEverywhere(t: LogType, ctx: Context)
    requires Format(t, ctx).Some?
    ensures forall f :: f in {level, trace_id, o_title, o_message, o_code, u_id, r_url, r_method} ==> Name(f) in Format(t, ctx).value
  {
    Unrestricted();
    FormatFields(t, ctx);
  }

  /** Request and message bodies, headers and personal details never reach a T log. */
  lemma RestrictedAbsentFromT(ctx: Context)
    requires Format(LogTypeT, ctx).Some?
    ensures forall f :: f in {d_p_error, d_p_success, r_res, r_body, r_headers, er_res, er_body, er_headers, ea_body, a_body}
                        ==> Name(f) !in Format(LogTypeT, ctx).value
    ensures Name(d_error) in Format(LogTypeT, ctx).value && Name(d_stack) in Format(LogTypeT, ctx).value
  {
    RestrictedToO();
    FormatFields(LogTypeT, ctx);
  }
}
