/**
 * The Format class: a fixed table of output fields. Each field has a
 * conversion (the decorator that defines its getter), a transform of the
 * logger data and, for some, the list of log types it may appear in
 * (the Access decorator's metadata).
 */
module FormatTable {
  import opened Basics
  import opened JsValues
  import opened LogData
  import opened FieldFormats

  /** The decorator that defines a field's getter. */
  datatype Conversion = AsString | AsObject | AsNumber

  /** A field's transform of the logger data. */
  datatype Source =
    | Plain(field: DataField)                   // data.field
    | WhenError(field: DataField)               // data.isError ? data.field : undefined
    | WhenSuccess(field: DataField)             // !data.isError ? data.field : undefined
    | Property(field: DataField, prop: string)  // data.field?.prop

  datatype FieldSpec = FieldSpec(conversion: Conversion, source: Source, access: Option<seq<LogType>>)

  /** The properties of Format, named as in the class. */
  datatype FormatField =
    | level | trace_id
    | d_error | d_success | d_stack | d_p_error | d_p_success
    | o_title | o_message | o_code | u_id
    | r_url | r_res | r_body | r_query | r_params | r_code | r_method | r_headers | r_runtime
    | er_url | er_res | er_body | er_query | er_params | er_code | er_method | er_headers | er_runtime
    | ea_queue | ea_body | ea_exchange | ea_routing_key | ea_runtime
    | a_queue | a_body | a_exchange | a_runtime

  const OT: Option<seq<LogType>> := Some([LogTypeO, LogTypeT])
  const OnlyO: Option<seq<LogType>> := Some([LogTypeO])

  function Spec(f: FormatField): FieldSpec
  {
    match f
    case level => FieldSpec(AsString, Plain(LevelField), None)
    case trace_id => FieldSpec(AsString, Plain(TraceIdField), None)
    case d_error => FieldSpec(AsObject, WhenError(DetailsField), OT)
    case d_success => FieldSpec(AsObject, WhenSuccess(DetailsField), OT)
    case d_stack => FieldSpec(AsString, Plain(StackField), OT)
    case d_p_error => FieldSpec(AsObject, WhenError(PersonalDetailsField), OnlyO)
    case d_p_success => FieldSpec(AsObject, WhenSuccess(PersonalDetailsField), OnlyO)
    case o_title => FieldSpec(AsString, Plain(TitleField), None)
    case o_message => FieldSpec(AsString, Plain(MessageField), None)
    case o_code => FieldSpec(AsString, Plain(CodeField), None)
    case u_id => FieldSpec(AsString, Plain(UserIdField), None)
    case r_url => FieldSpec(AsString, Property(RequestField, "url"), None)
    case r_res => FieldSpec(AsObject, Property(RequestField, "response"), OnlyO)
    case r_body => FieldSpec(AsObject, Property(RequestField, "body"), OnlyO)
    case r_query => FieldSpec(AsObject, Property(RequestField, "query"), None)
    case r_params => FieldSpec(AsObject, Property(RequestField, "params"), None)
    case r_code => FieldSpec(AsString, Property(RequestField, "code"), None)
    case r_method => FieldSpec(AsString, Property(RequestField, "method"), None)
    case r_headers => FieldSpec(AsObject, Property(RequestField, "headers"), OnlyO)
    case r_runtime => FieldSpec(AsNumber, Property(RequestField, "runtime"), None)
    case er_url => FieldSpec(AsString, Property(ExternalRequestField, "url"), None)
    case er_res => FieldSpec(AsObject, Property(ExternalRequestField, "response"), OnlyO)
    case er_body => FieldSpec(AsObject, Property(ExternalRequestField, "body"), OnlyO)
    case er_query => FieldSpec(AsObject, Property(ExternalRequestField, "query"), None)
    case er_params => FieldSpec(AsObject, Property(ExternalRequestField, "params"), None)
    case er_code => FieldSpec(AsString, Property(ExternalRequestField, "code"), None)
    case er_method => FieldSpec(AsString, Property(ExternalRequestField, "method"), None)
    case er_headers => FieldSpec(AsObject, Property(ExternalRequestField, "headers"), OnlyO)
    case er_runtime => FieldSpec(AsNumber, Property(ExternalRequestField, "runtime"), None)
    case ea_queue => FieldSpec(AsString, Property(ExternalRabbitmqField, "queue"), None)
    case ea_body => FieldSpec(AsObject, Property(ExternalRabbitmqField, "body"), OnlyO)
    case ea_exchange => FieldSpec(AsString, Property(ExternalRabbitmqField, "exchange"), None)
    case ea_routing_key => FieldSpec(AsString, Property(ExternalRabbitmqField, "routingKey"), None)
    case ea_runtime => FieldSpec(AsNumber, Property(ExternalRabbitmqField, "runtime"), None)
    case a_queue => FieldSpec(AsString, Property(RabbitmqField, "queue"), None)
    case a_body => FieldSpec(AsObject, Property(RabbitmqField, "body"), OnlyO)
    case a_exchange => FieldSpec(AsString, Property(RabbitmqField, "exchange"), None)
    case a_runtime => FieldSpec(AsNumber, Property(RabbitmqField, "runtime"), None)
  }

  /** The property's name. */
  function Name(f: FormatField): string
  {
    match f
    case level => "level"
    case trace_id => "trace_id"
    case d_error => "d_error"
    case d_success => "d_success"
    case d_stack => "d_stack"
    case d_p_error => "d_p_error"
    case d_p_success => "d_p_success"
    case o_title => "o_title"
    case o_message => "o_message"
    case o_code => "o_code"
    case u_id => "u_id"
    case r_url => "r_url"
    case r_res => "r_res"
    case r_body => "r_body"
    case r_query => "r_query"
    case r_params => "r_params"
    case r_code => "r_code"
    case r_method => "r_method"
    case r_headers => "r_headers"
    case r_runtime => "r_runtime"
    case er_url => "er_url"
    case er_res => "er_res"
    case er_body => "er_body"
    case er_query => "er_query"
    case er_params => "er_params"
    case er_code => "er_code"
    case er_method => "er_method"
    case er_headers => "er_headers"
    case er_runtime => "er_runtime"
    case ea_queue => "ea_queue"
    case ea_body => "ea_body"
    case ea_exchange => "ea_exchange"
    case ea_routing_key => "ea_routing_key"
    case ea_runtime => "ea_runtime"
    case a_queue => "a_queue"
    case a_body => "a_body"
    case a_exchange => "a_exchange"
    case a_runtime => "a_runtime"
  }

  /** The field named n, if any, looked up by its first letters. */
  function FieldNamed(n: string): (r: Option<FormatField>)
  {
    if |n| < 2 then None
    else if n[0] == 'l' then
      if n == "level" then Some(level)
      else None
    else if n[0] == 't' then
      if n == "trace_id" then Some(trace_id)
      else None
    else if n[0] == 'u' then
      if n == "u_id" then Some(u_id)
      else None
    else if n[0] == 'o' then
      if n == "o_title" then Some(o_title)
      else if n == "o_message" then Some(o_message)
      else if n == "o_code" then Some(o_code)
      else None
    else if n[0] == 'd' then
      if n == "d_error" then Some(d_error)
      else if n == "d_success" then Some(d_success)
      else if n == "d_stack" then Some(d_stack)
      else if n == "d_p_error" then Some(d_p_error)
      else if n == "d_p_success" then Some(d_p_success)
      else None
    else if n[0] == 'r' then
      if n == "r_url" then Some(r_url)
      else if n == "r_res" then Some(r_res)
      else if n == "r_body" then Some(r_body)
      else if n == "r_query" then Some(r_query)
      else if n == "r_params" then Some(r_params)
      else if n == "r_code" then Some(r_code)
      else if n == "r_method" then Some(r_method)
      else if n == "r_headers" then Some(r_headers)
      else if n == "r_runtime" then Some(r_runtime)
      else None
    else if n[0] == 'a' then
      if n == "a_queue" then Some(a_queue)
      else if n == "a_body" then Some(a_body)
      else if n == "a_exchange" then Some(a_exchange)
      else if n == "a_runtime" then Some(a_runtime)
      else None
    else if n[0] == 'e' && n[1] == 'r' then
      if n == "er_url" then Some(er_url)
      else if n == "er_res" then Some(er_res)
      else if n == "er_body" then Some(er_body)
      else if n == "er_query" then Some(er_query)
      else if n == "er_params" then Some(er_params)
      else if n == "er_code" then Some(er_code)
      else if n == "er_method" then Some(er_method)
      else if n == "er_headers" then Some(er_headers)
      else if n == "er_runtime" then Some(er_runtime)
      else None
    else if n[0] == 'e' && n[1] == 'a' then
      if n == "ea_queue" then Some(ea_queue)
      else if n == "ea_body" then Some(ea_body)
      else if n == "ea_exchange" then Some(ea_exchange)
      else if n == "ea_routing_key" then Some(ea_routing_key)
      else if n == "ea_runtime" then Some(ea_runtime)
      else None
    else None
  }

  /** Every field is found by its name, so distinct fields have distinct names. */
  lemma FieldNamedName(f: FormatField)
    ensures FieldNamed(Name(f)) == Some(f)
  {
    if f.level? || f.trace_id? || f.d_error? || f.d_success? || f.d_stack? || f.d_p_error? || f.d_p_success? || f.o_title? || f.o_message? || f.o_code? || f.u_id? {
      FieldNamedNameTop(f);
    } else if f.r_url? || f.r_res? || f.r_body? || f.r_query? || f.r_params? || f.r_code? || f.r_method? || f.r_headers? || f.r_runtime? {
      FieldNamedNameRequest(f);
    } else if f.er_url? || f.er_res? || f.er_body? || f.er_query? || f.er_params? || f.er_code? || f.er_method? || f.er_headers? || f.er_runtime? {
      FieldNamedNameExternalRequest(f);
    } else if f.ea_queue? || f.ea_body? || f.ea_exchange? || f.ea_routing_key? || f.ea_runtime? {
      FieldNamedNameExternalRabbit(f);
    } else if f.a_queue? || f.a_body? || f.a_exchange? || f.a_runtime? {
      FieldNamedNameRabbit(f);
    }
  }

  lemma FieldNamedNameTop(f: FormatField)
    requires f.level? || f.trace_id? || f.d_error? || f.d_success? || f.d_stack? || f.d_p_error? || f.d_p_success? || f.o_title? || f.o_message? || f.o_code? || f.u_id?
    ensures FieldNamed(Name(f)) == Some(f)
  {
  }

  lemma FieldNamedNameRequest(f: FormatField)
    requires f.r_url? || f.r_res? || f.r_body? || f.r_query? || f.r_params? || f.r_code? || f.r_method? || f.r_headers? || f.r_runtime?
    ensures FieldNamed(Name(f)) == Some(f)
  {
  }

  lemma FieldNamedNameExternalRequest(f: FormatField)
    requires f.er_url? || f.er_res? || f.er_body? || f.er_query? || f.er_params? || f.er_code? || f.er_method? || f.er_headers? || f.er_runtime?
    ensures FieldNamed(Name(f)) == Some(f)
  {
  }

  lemma FieldNamedNameExternalRabbit(f: FormatField)
    requires f.ea_queue? || f.ea_body? || f.ea_exchange? || f.ea_routing_key? || f.ea_runtime?
    ensures FieldNamed(Name(f)) == Some(f)
  {
  }

  lemma FieldNamedNameRabbit(f: FormatField)
    requires f.a_queue? || f.a_body? || f.a_exchange? || f.a_runtime?
    ensures FieldNamed(Name(f)) == Some(f)
  {
  }

  /** Each field's transform of the logger data. */
  function Transform(s: Source, d: LoggerData): (v: Value)
    ensures s.WhenError? && !Truthy(d.isError) ==> v == Undefined
    ensures s.WhenSuccess? && Truthy(d.isError) ==> v == Undefined
    ensures s.Property? && !Get(d, s.field).Obj? ==> v == Undefined
  {
    match s
    case Plain(f) => Get(d, f)
    case WhenError(f) => if Truthy(d.isError) then Get(d, f) else Undefined
    case WhenSuccess(f) => if !Truthy(d.isError) then Get(d, f) else Undefined
    case Property(f, prop) => Member(Get(d, f), prop)
  }

  /**
   * What a getter reads: the logger data, the async-local values stored
   * under field names, and `Number(raw)` with NaN read as undefined (the
   * NumberFormat conversion, which is floating point and so a parameter).
   */
  datatype Context = Context(data: LoggerData, globals: map<string, Value>, toNumber: Value -> Value)

  /** `Logger.globalGet(name)`: undefined when nothing is stored. */
  function Override(globals: map<string, Value>, name: string): (v: Value)
    ensures name !in globals ==> v == Undefined
  {
    if name in globals then globals[name] else Undefined
  }

  /** The value of `formatter[name]` for a field: its decorator's getter. */
  function FieldValue(f: FormatField, ctx: Context): (g: Got)
    ensures Spec(f).conversion != AsObject ==> g.Val?
    ensures Spec(f).conversion == AsObject ==>
      (g.Thrown? <==> FileReplace.ReplaceFile(Raw(Override(ctx.globals, Name(f)), Transform(Spec(f).source, ctx.data))).Null?)
  {
    var override := Override(ctx.globals, Name(f));
    var transformed := Transform(Spec(f).source, ctx.data);
    match Spec(f).conversion
    case AsString => StringFormat(override, transformed)
    case AsObject => ObjectFormat(override, transformed)
    case AsNumber => Val(ctx.toNumber(Raw(override, transformed)))
  }

  /** A value the output shows: JSON drops undefined. */
  predicate Defined(g: Got) { g.Val? && !g.v.Undefined? }

  /**
   * Without stored overrides, `d_error` and `d_success` are never both
   * defined: the details go to the one isError selects.
   */
  lemma DetailsExclusive(ctx: Context)
    requires !Truthy(Override(ctx.globals, "d_error")) && !Truthy(Override(ctx.globals, "d_success"))
    ensures !(Defined(FieldValue(d_error, ctx)) && Defined(FieldValue(d_success, ctx)))
    ensures Truthy(ctx.data.isError) ==> FieldValue(d_error, ctx) == ObjectFormat(Undefined, ctx.data.details)
    ensures !Truthy(ctx.data.isError) ==> FieldValue(d_success, ctx) == ObjectFormat(Undefined, ctx.data.details)
  {
    FalsyOverrideIgnored(Override(ctx.globals, "d_error"), Transform(Spec(d_error).source, ctx.data));
    FalsyOverrideIgnored(Override(ctx.globals, "d_success"), Transform(Spec(d_success).source, ctx.data));
  }

  /** Likewise `d_p_error` and `d_p_success` for the personal details. */
  lemma PersonalDetailsExclusive(ctx: Context)
    requires !Truthy(Override(ctx.globals, "d_p_error")) && !Truthy(Override(ctx.globals, "d_p_success"))
    ensures !(Defined(FieldValue(d_p_error, ctx)) && Defined(FieldValue(d_p_success, ctx)))
    ensures Truthy(ctx.data.isError) ==> FieldValue(d_p_error, ctx) == ObjectFormat(Undefined, ctx.data.personalDetails)
    ensures !Truthy(ctx.data.isError) ==> FieldValue(d_p_success, ctx) == ObjectFormat(Undefined, ctx.data.personalDetails)
  {
    FalsyOverrideIgnored(Override(ctx.globals, "d_p_error"), Transform(Spec(d_p_error).source, ctx.data));
    FalsyOverrideIgnored(Override(ctx.globals, "d_p_success"), Transform(Spec(d_p_success).source, ctx.data));
  }

  /** Every access list admits LOG_TYPE_O. */
  lemma EveryAccessListHasO(f: FormatField)
    ensures Spec(f).access.Some? ==> LogTypeO in Spec(f).access.value
  {
  }

  /** Bodies, responses, headers and personal details are kept to LOG_TYPE_O. */
  lemma RestrictedToO()
    ensures forall f :: f in {d_p_error, d_p_success, r_res, r_body, r_headers, er_res, er_body, er_headers, ea_body, a_body}
                        ==> Spec(f).access == Some([LogTypeO])
    ensures Spec(d_error).access == Spec(d_success).access == Spec(d_stack).access == Some([LogTypeO, LogTypeT])
  {
  }

  /** The identification, message and request-line fields go to every log type. */
  lemma Unrestricted()
    ensures forall f :: f in {level, trace_id, o_title, o_message, o_code, u_id, r_url, r_method} ==> Spec(f).access.None?
  {
  }

  /** Every name the table knows has at least two letters and starts with a section letter. */
  lemma FieldNamedInitial(n: string)
    requires FieldNamed(n).Some?
    ensures |n| >= 2
    ensures n[0] == 'l' || n[0] == 't' || n[0] == 'u' || n[0] == 'o' || n[0] == 'd' || n[0] == 'r' || n[0] == 'a' || n[0] == 'e'
  {
  }
}
