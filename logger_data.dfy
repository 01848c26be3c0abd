/**
 * The record a logger builds: the fields of LoggerData, every one a
 * JavaScript value (unset is undefined) except the list of log types.
 */
module LogData {
  import opened Basics
  import opened JsValues

  /** The five log types; a log is emitted once per type. */
  datatype LogType = LogTypeO | LogTypeB | LogTypeC | LogTypeT | LogTypeA

  /** The levels, named as the log4js methods a record is emitted through. */
  datatype Level = Trace | Info | Error | Fatal | Warn

  function LevelName(l: Level): (s: string)
    ensures s != ""
  {
    match l
    case Trace => "trace"
    case Info => "info"
    case Error => "error"
    case Fatal => "fatal"
    case Warn => "warn"
  }

  lemma LevelNameInjective(a: Level, b: Level)
    requires LevelName(a) == LevelName(b)
    ensures a == b
  {
  }

  datatype LoggerData = LoggerData(
    level: Value, code: Value,
    request: Value, externalRequest: Value, rabbitmq: Value, externalRabbitmq: Value,
    details: Value, personalDetails: Value,
    logTypes: seq<LogType>,
    traceId: Value, userId: Value, message: Value, title: Value, stack: Value, isError: Value)

  /** The value-typed fields of LoggerData, as keys of a partial record. */
  datatype DataField =
    | LevelField | CodeField | RequestField | ExternalRequestField | RabbitmqField
    | ExternalRabbitmqField | DetailsField | PersonalDetailsField | TraceIdField
    | UserIdField | MessageField | TitleField | StackField | IsErrorField

  function Get(d: LoggerData, f: DataField): Value
  {
    match f
    case LevelField => d.level
    case CodeField => d.code
    case RequestField => d.request
    case ExternalRequestField => d.externalRequest
    case RabbitmqField => d.rabbitmq
    case ExternalRabbitmqField => d.externalRabbitmq
    case DetailsField => d.details
    case PersonalDetailsField => d.personalDetails
    case TraceIdField => d.traceId
    case UserIdField => d.userId
    case MessageField => d.message
    case TitleField => d.title
    case StackField => d.stack
    case IsErrorField => d.isError
  }

  /** The record with one field written. */
  function Put(d: LoggerData, f: DataField, v: Value): (r: LoggerData)
    ensures Get(r, f) == v
    ensures forall g :: g != f ==> Get(r, g) == Get(d, g)
    ensures r.logTypes == d.logTypes
  {
    match f
    case LevelField => d.(level := v)
    case CodeField => d.(code := v)
    case RequestField => d.(request := v)
    case ExternalRequestField => d.(externalRequest := v)
    case RabbitmqField => d.(rabbitmq := v)
    case ExternalRabbitmqField => d.(externalRabbitmq := v)
    case DetailsField => d.(details := v)
    case PersonalDetailsField => d.(personalDetails := v)
    case TraceIdField => d.(traceId := v)
    case UserIdField => d.(userId := v)
    case MessageField => d.(message := v)
    case TitleField => d.(title := v)
    case StackField => d.(stack := v)
    case IsErrorField => d.(isError := v)
  }

  /** Two records with the same fields and log types are the same record. */
  lemma {:induction false} SameFields(a: LoggerData, b: LoggerData)
    requires forall f :: Get(a, f) == Get(b, f)
    requires a.logTypes == b.logTypes
    ensures a == b
  {
    assert a.level == b.level by { assert Get(a, LevelField) == Get(b, LevelField); }
    assert a.code == b.code by { assert Get(a, CodeField) == Get(b, CodeField); }
    assert a.request == b.request by { assert Get(a, RequestField) == Get(b, RequestField); }
    assert a.externalRequest == b.externalRequest by { assert Get(a, ExternalRequestField) == Get(b, ExternalRequestField); }
    assert a.rabbitmq == b.rabbitmq by { assert Get(a, RabbitmqField) == Get(b, RabbitmqField); }
    assert a.externalRabbitmq == b.externalRabbitmq by { assert Get(a, ExternalRabbitmqField) == Get(b, ExternalRabbitmqField); }
    assert a.details == b.details by { assert Get(a, DetailsField) == Get(b, DetailsField); }
    assert a.personalDetails == b.personalDetails by { assert Get(a, PersonalDetailsField) == Get(b, PersonalDetailsField); }
    assert a.traceId == b.traceId by { assert Get(a, TraceIdField) == Get(b, TraceIdField); }
    assert a.userId == b.userId by { assert Get(a, UserIdField) == Get(b, UserIdField); }
    assert a.message == b.message by { assert Get(a, MessageField) == Get(b, MessageField); }
    assert a.title == b.title by { assert Get(a, TitleField) == Get(b, TitleField); }
    assert a.stack == b.stack by { assert Get(a, StackField) == Get(b, StackField); }
    assert a.isError == b.isError by { assert Get(a, IsErrorField) == Get(b, IsErrorField); }
  }

  /** A new LoggerData: nothing set, log types O and T. */
  function InitialData(): (d: LoggerData)
    ensures forall f :: Get(d, f) == Undefined
    ensures d.logTypes == [LogTypeO, LogTypeT]
  {
    LoggerData(Undefined, Undefined, Undefined, Undefined, Undefined, Undefined, Undefined, Undefined,
               [LogTypeO, LogTypeT], Undefined, Undefined, Undefined, Undefined, Undefined, Undefined)
  }

  /**
   * A `Partial<LoggerData>`: the fields it has as own properties (possibly
   * with the value undefined), and its log types when it has them.
   */
  datatype PartialData = PartialData(fields: map<DataField, Value>, logTypes: Option<seq<LogType>>)

  /** `Object.assign(data, partial)`: every property the partial has is copied over. */
  function Assign(d: LoggerData, p: PartialData): (r: LoggerData)
    ensures forall f :: Get(r, f) == if f in p.fields then p.fields[f] else Get(d, f)
    ensures r.logTypes == if p.logTypes.Some? then p.logTypes.value else d.logTypes
  {
    AssignFrom(d, p.fields, if p.logTypes.Some? then p.logTypes.value else d.logTypes)
  }

  function AssignFrom(d: LoggerData, fields: map<DataField, Value>, types: seq<LogType>): (r: LoggerData)
    ensures forall f :: Get(r, f) == if f in fields then fields[f] else Get(d, f)
    ensures r.logTypes == types
  {
    var pick := (f: DataField) => if f in fields then fields[f] else Get(d, f);
    LoggerData(pick(LevelField), pick(CodeField), pick(RequestField), pick(ExternalRequestField),
               pick(RabbitmqField), pick(ExternalRabbitmqField), pick(DetailsField), pick(PersonalDetailsField),
               types, pick(TraceIdField), pick(UserIdField), pick(MessageField), pick(TitleField),
               pick(StackField), pick(IsErrorField))
  }

  /** Assigning an empty partial changes nothing; assigning a record's own fields back does not either. */
  lemma AssignNeutral(d: LoggerData, p: PartialData)
    requires forall f :: f in p.fields ==> p.fields[f] == Get(d, f)
    requires p.logTypes.Some? ==> p.logTypes.value == d.logTypes
    ensures Assign(d, p) == d
  {
    SameFields(Assign(d, p), d);
  }

  /** Later assignments win: assigning p then q is assigning q over p. */
  lemma AssignTwice(d: LoggerData, p: PartialData, q: PartialData)
    ensures Assign(Assign(d, p), q)
         == Assign(d, PartialData(p.fields + q.fields, if q.logTypes.Some? then q.logTypes else p.logTypes))
  {
    SameFields(Assign(Assign(d, p), q),
               Assign(d, PartialData(p.fields + q.fields, if q.logTypes.Some? then q.logTypes else p.logTypes)));
  }

  /** setError: message and stack from the error, isError true, nothing else. */
  function WithError(d: LoggerData, message: Value, stack: Value): (r: LoggerData)
    ensures r.message == message && r.stack == stack && r.isError == Bool(true)
    ensures forall f :: f !in {MessageField, StackField, IsErrorField} ==> Get(r, f) == Get(d, f)
    ensures r.logTypes == d.logTypes
  {
    Put(Put(Put(d, MessageField, message), StackField, stack), IsErrorField, Bool(true))
  }

  /** The fields a `*Log` method sets before emitting. */
  function WithEntry(d: LoggerData, level: Level, title: Value, code: Value): (r: LoggerData)
    ensures r.level == Str(LevelName(level)) && r.title == title && r.code == code
    ensures forall f :: f !in {LevelField, TitleField, CodeField} ==> Get(r, f) == Get(d, f)
    ensures r.logTypes == d.logTypes
  {
    Put(Put(Put(d, LevelField, Str(LevelName(level))), TitleField, title), CodeField, code)
  }

  /** The `add*` methods: the field becomes `{...old, ...data}`. */
  function Merged(d: LoggerData, f: DataField, v: Value): (r: LoggerData)
    ensures Get(r, f) == Merge(Get(d, f), v)
    ensures forall g :: g != f ==> Get(r, g) == Get(d, g)
    ensures r.logTypes == d.logTypes
  {
    Put(d, f, Merge(Get(d, f), v))
  }
}
