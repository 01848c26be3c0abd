/**
 * BaseLogger: a builder over one LoggerData record whose setters update the
 * record in place and return the logger itself, and whose `*Log` methods
 * set the level, title and code and emit one record per log type.
 *
 * The log4js sink is an object holding the emitted records; the uuid of a
 * trace, the clock and the async-local values are parameters.
 */
module Logging {
  import opened Basics
  import opened JsValues
  import opened LogData
  import opened FormatTable
  import opened Formatter

  /** What reaches log4js: `logger[level]({timestamp, logtype, data})`. */
  datatype LogRecord = LogRecord(level: Level, timestamp: int, logtype: LogType, data: map<string, Value>)

  /** The records one log() call appends, and whether a format threw and cut it short. */
  datatype Emission = Emission(records: seq<LogRecord>, threw: bool)

  /** The formatter applied to one logger record: `format(type, loggerData)` for each type. */
  function Formatted(ctx: Context): (fmt: LogType -> Option<map<string, Value>>)
    ensures forall t :: fmt(t) == Format(t, ctx)
  {
    t => Format(t, ctx)
  }

  /**
   * The forEach over the log types: one record per type, in order, up to
   * the first type whose format throws.
   */
  function Emit(types: seq<LogType>, level: Level, fmt: LogType -> Option<map<string, Value>>, now: int): (e: Emission)
    ensures |e.records| <= |types|
  {
    if types == [] then Emission([], false)
    else
      var before := Emit(types[..|types| - 1], level, fmt, now);
      if before.threw then before
      else
        var last := types[|types| - 1];
        match fmt(last)
        case None => Emission(before.records, true)
        case Some(data) => Emission(before.records + [LogRecord(level, now, last, data)], false)
  }

  /**
   * Record i is the formatted record of type i, at the given level and
   * timestamp; the emission stops short exactly when the format of the
   * first type left over threw.
   */
  lemma {:induction false} EmitShape(types: seq<LogType>, level: Level, fmt: LogType -> Option<map<string, Value>>, now: int)
    ensures var e := Emit(types, level, fmt, now);
      && (forall i :: 0 <= i < |e.records| ==>
           && e.records[i].level == level && e.records[i].timestamp == now && e.records[i].logtype == types[i]
           && fmt(types[i]) == Some(e.records[i].data))
      && (!e.threw <==> |e.records| == |types|)
      && (e.threw ==> fmt(types[|e.records|]).None?)
  {
    if types != [] {
      var prefix := types[..|types| - 1];
      EmitShape(prefix, level, fmt, now);
      assert forall i :: 0 <= i < |prefix| ==> prefix[i] == types[i];
    }
  }

  /** Emitting one more type extends the emission of the types before it. */
  lemma EmitSnoc(types: seq<LogType>, t: LogType, level: Level, fmt: LogType -> Option<map<string, Value>>, now: int)
    ensures var before := Emit(types, level, fmt, now);
      Emit(types + [t], level, fmt, now) ==
        if before.threw then before
        else if fmt(t).None? then Emission(before.records, true)
        else Emission(before.records + [LogRecord(level, now, t, fmt(t).value)], false)
  {
    assert (types + [t])[..|types|] == types;
  }

  /** Once a format has thrown, the remaining types emit nothing more. */
  lemma {:induction false} EmitStops(types: seq<LogType>, n: nat, level: Level, fmt: LogType -> Option<map<string, Value>>, now: int)
    requires n <= |types| && Emit(types[..n], level, fmt, now).threw
    ensures Emit(types, level, fmt, now) == Emit(types[..n], level, fmt, now)
    decreases |types| - n
  {
    if n < |types| {
      assert types[..n + 1] == types[..n] + [types[n]];
      EmitSnoc(types[..n], types[n], level, fmt, now);
      EmitStops(types, n + 1, level, fmt, now);
    } else {
      assert types[..n] == types;
    }
  }

  /** With every format succeeding, log() emits exactly one record per log type. */
  lemma {:induction false} EmitComplete(types: seq<LogType>, level: Level, fmt: LogType -> Option<map<string, Value>>, now: int)
    requires forall t :: t in types ==> fmt(t).Some?
    ensures var e := Emit(types, level, fmt, now);
      && !e.threw
      && e.records == seq(|types|, i requires 0 <= i < |types| => LogRecord(level, now, types[i], fmt(types[i]).value))
  {
    EmitShape(types, level, fmt, now);
  }

  /** The log4js sink: every record emitted so far. */
  class Sink {
    var records: seq<LogRecord>

    constructor()
      ensures records == []
    {
      records := [];
    }

    /** The forEach of log(): formats and appends one record per type, stopping where a format throws. */
    method Write(types: seq<LogType>, level: Level, fmt: LogType -> Option<map<string, Value>>, now: int) returns (threw: bool)
      modifies this`records
      ensures records == old(records) + Emit(types, level, fmt, now).records
      ensures threw == Emit(types, level, fmt, now).threw
    {
      var i := 0;
      while i < |types|
        invariant 0 <= i <= |types|
        invariant !Emit(types[..i], level, fmt, now).threw
        invariant records == old(records) + Emit(types[..i], level, fmt, now).records
      {
        assert types[..i + 1] == types[..i] + [types[i]];
        EmitSnoc(types[..i], types[i], level, fmt, now);
        var formatted := fmt(types[i]);
        if formatted.None? {
          EmitStops(types, i + 1, level, fmt, now);
          return true;
        }
        records := records + [LogRecord(level, now, types[i], formatted.value)];
        i := i + 1;
      }
      assert types[..i] == types;
      threw := false;
    }
  }

  class BaseLogger {
    var data: LoggerData
    /** `options?.isLocal`. */
    const isLocal: bool
    const sink: Sink
    /** `Number(raw)` with NaN read as undefined, for the NumberFormat fields. */
    const toNumber: Value -> Value

    /** A new logger: a fresh LoggerData with the given trace id. */
    constructor(isLocal: bool, sink: Sink, toNumber: Value -> Value, traceId: string)
      ensures data == InitialData().(traceId := Str(traceId))
      ensures this.isLocal == isLocal && this.sink == sink && this.toNumber == toNumber
    {
      data := InitialData().(traceId := Str(traceId));
      this.isLocal, this.sink, this.toNumber := isLocal, sink, toNumber;
    }

    /** sub(): a new logger over a copy of this one's data with a fresh trace id; this one is unchanged. */
    method Sub(traceId: string) returns (child: BaseLogger)
      ensures fresh(child)
      ensures child.data == data.(traceId := Str(traceId))
      ensures child.isLocal == isLocal && child.sink == sink && child.toNumber == toNumber
    {
      child := new BaseLogger(isLocal, sink, toNumber, traceId);
      child.data := data.(traceId := Str(traceId));
    }

    /** assign(): `Object.assign(this.loggerData, data)`. */
    method Assign(p: PartialData) returns (self: BaseLogger)
      modifies this`data
      ensures self == this && data == LogData.Assign(old(data), p)
    {
      data := LogData.Assign(data, p);
      self := this;
    }

    /** setTypes(): replaces the log types. */
    method SetTypes(types: seq<LogType>) returns (self: BaseLogger)
      modifies this`data
      ensures self == this && data == old(data).(logTypes := types)
    {
      data := data.(logTypes := types);
      self := this;
    }

    /** addTypes(): appends the types after the existing ones. */
    method AddTypes(types: seq<LogType>) returns (self: BaseLogger)
      modifies this`data
      ensures self == this && data == old(data).(logTypes := old(data).logTypes + types)
    {
      data := data.(logTypes := data.logTypes + types);
      self := this;
    }

    /** setMessage(). */
    method SetMessage(message: Value) returns (self: BaseLogger)
      modifies this`data
      ensures self == this && data == Put(old(data), MessageField, message)
    {
      data := Put(data, MessageField, message);
      self := this;
    }

    /** setError(): the error's message and stack, and isError. */
    method SetError(message: Value, stack: Value) returns (self: BaseLogger)
      modifies this`data
      ensures self == this && data == WithError(old(data), message, stack)
    {
      data := WithError(data, message, stack);
      self := this;
    }

    /** The set* methods for the object fields: the field is replaced. */
    method SetField(f: DataField, v: Value) returns (self: BaseLogger)
      requires f in {DetailsField, PersonalDetailsField, RequestField, ExternalRequestField,
                     ExternalRabbitmqField, RabbitmqField}
      modifies this`data
      ensures self == this && data == Put(old(data), f, v)
    {
      data := Put(data, f, v);
      self := this;
    }

    /** The add* methods other than addRabbitMq: the field becomes `{...field, ...v}`. */
    method AddField(f: DataField, v: Value) returns (self: BaseLogger)
      requires f in {DetailsField, PersonalDetailsField, RequestField, ExternalRequestField, ExternalRabbitmqField}
      modifies this`data
      ensures self == this && data == Merged(old(data), f, v)
    {
      data := Merged(data, f, v);
      self := this;
    }

    /** addRabbitMq(): writes `{...rabbitmq, ...v}` into externalRabbitmq; rabbitmq itself is unchanged. */
    method AddRabbitMq(v: Value) returns (self: BaseLogger)
      modifies this`data
      ensures self == this && data == Put(old(data), ExternalRabbitmqField, Merge(old(data).rabbitmq, v))
      ensures data.rabbitmq == old(data).rabbitmq
    {
      data := Put(data, ExternalRabbitmqField, Merge(data.rabbitmq, v));
      self := this;
    }

    /** What log() emits from the record d: one O record when local, else one per log type. */
    function Emitted(d: LoggerData, level: Level, globals: map<string, Value>, now: int): (e: Emission)
      ensures isLocal ==> |e.records| <= 1 && (e.records != [] ==> e.records[0].logtype == LogTypeO)
    {
      var fmt := Formatted(Context(d, globals, toNumber));
      EmitShape([LogTypeO], level, fmt, now);
      if isLocal then Emit([LogTypeO], level, fmt, now) else Emit(d.logTypes, level, fmt, now)
    }

    /** log(): appends the records to the sink; true when a format threw part-way. */
    method Log(level: Level, globals: map<string, Value>, now: int) returns (threw: bool)
      modifies sink`records
      ensures sink.records == old(sink.records) + Emitted(data, level, globals, now).records
      ensures threw == Emitted(data, level, globals, now).threw
    {
      var fmt := Formatted(Context(data, globals, toNumber));
      if isLocal {
        threw := sink.Write([LogTypeO], level, fmt, now);
      } else {
        threw := sink.Write(data.logTypes, level, fmt, now);
      }
    }

    /** The `*Log` methods: set level, title and code, then log(). */
    method LevelLog(level: Level, title: Value, code: Value, globals: map<string, Value>, now: int)
      returns (threw: bool)
      modifies this`data, sink`records
      ensures data == WithEntry(old(data), level, title, code)
      ensures sink.records == old(sink.records) + Emitted(data, level, globals, now).records
      ensures threw == Emitted(data, level, globals, now).threw
    {
      data := WithEntry(data, level, title, code);
      threw := Log(level, globals, now);
    }

    method TraceLog(title: Value, code: Value, globals: map<string, Value>, now: int) returns (threw: bool)
      modifies this`data, sink`records
      ensures data == WithEntry(old(data), Trace, title, code)
      ensures sink.records == old(sink.records) + Emitted(data, Trace, globals, now).records
      ensures threw == Emitted(data, Trace, globals, now).threw
    {
      threw := LevelLog(Trace, title, code, globals, now);
    }

    method InfoLog(title: Value, code: Value, globals: map<string, Value>, now: int) returns (threw: bool)
      modifies this`data, sink`records
      ensures data == WithEntry(old(data), Info, title, code)
      ensures sink.records == old(sink.records) + Emitted(data, Info, globals, now).records
      ensures threw == Emitted(data, Info, globals, now).threw
    {
      threw := LevelLog(Info, title, code, globals, now);
    }

    method ErrorLog(title: Value, code: Value, globals: map<string, Value>, now: int) returns (threw: bool)
      modifies this`data, sink`records
      ensures data == WithEntry(old(data), Error, title, code)
      ensures sink.records == old(sink.records) + Emitted(data, Error, globals, now).records
      ensures threw == Emitted(data, Error, globals, now).threw
    {
      threw := LevelLog(Error, title, code, globals, now);
    }

    method FatalLog(title: Value, code: Value, globals: map<string, Value>, now: int) returns (threw: bool)
      modifies this`data, sink`records
      ensures data == WithEntry(old(data), Fatal, title, code)
      ensures sink.records == old(sink.records) + Emitted(data, Fatal, globals, now).records
      ensures threw == Emitted(data, Fatal, globals, now).threw
    {
      threw := LevelLog(Fatal, title, code, globals, now);
    }

    method WarnLog(title: Value, code: Value, globals: map<string, Value>, now: int) returns (threw: bool)
      modifies this`data, sink`records
      ensures data == WithEntry(old(data), Warn, title, code)
      ensures sink.records == old(sink.records) + Emitted(data, Warn, globals, now).records
      ensures threw == Emitted(data, Warn, globals, now).threw
    {
      threw := LevelLog(Warn, title, code, globals, now);
    }
  }

  /** A child logger's builder calls leave the parent's record as it was. */
  method SubScenario(toNumber: Value -> Value)
  {
    var sink := new Sink();
    var parent := new BaseLogger(false, sink, toNumber, "trace-1");
    var before := parent.data;
    var child := parent.Sub("trace-2");
    var same := child.SetError(Str("boom"), Str("at f"));
    assert same == child;
    var again := same.AddTypes([LogTypeB]);
    assert child.data.logTypes == [LogTypeO, LogTypeT, LogTypeB];
    assert child.data.isError == Bool(true) && child.data.traceId == Str("trace-2");
    assert parent.data == before;
  }
}
