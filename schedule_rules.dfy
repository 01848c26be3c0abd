/**
 * The pure scheduling rules of the scheduler service: interval
 * normalisation, cron expressions per schedule kind, the first and the
 * following fire time, queue names, job time-to-live and the retention
 * sweep filter.
 *
 * Intervals are in minutes, as in the source. Instants are in milliseconds
 * since the epoch, because the daily start time keeps the milliseconds of
 * "now" and compares seconds. Time zones and daylight saving are not
 * modelled: a day is 86 400 000 ms and starts at a multiple of that.
 */
module Schedule {
  import opened Basics
  import opened JsText

  // Rounding units of the interval, in minutes.
  const YearValue: int := 15768000
  const MonthValue: int := 43200
  const DayValue: int := 1440
  const HourValue: int := 60

  const MinuteMs: int := 60000
  const HourMs: int := 3600000
  const DayMs: int := 86400000

  /** NODE_ENV when it is unset or empty. */
  const DefaultEnv: string := "develop"

  /** The code of a cron-type catalog row; a catalog may hold codes the service does not know. */
  datatype CronKind = Interval | Once | OnceADay | IntervalWithStartDate | Unknown(code: string)

  /** A point in time, or an invalid date (a null column, an unparsable string). */
  datatype Instant = At(ms: int) | NoDate

  /** What getCronValue returns for a known kind: the trigger and, for the two-stage kind, the repeating one. */
  datatype CronValues = CronValues(cron: string, cronInterval: Option<string>)

  datatype SchedulerError =
    | CronTypeNotFound           // 'Task scheduler not found'
    | PriorityNotFound           // 'Task priority not found'
    | NoCronValue                // destructuring the undefined result of getCronValue
    | NoTaskRecord               // reading a field of a missing task row
    | StartTimeError             // 'Error setting start time'
    | TaskCreationFailed(cause: SchedulerError)  // 'Error task creating'

  /** A JS number that is neither undefined/null nor 0. */
  predicate IsTruthy(n: Option<int>) { n.Some? && n.value != 0 }

  /** The minutes of an optional interval as `moment.add` takes them: a missing one adds nothing. */
  function MinutesMs(interval: Option<int>): int
  {
    if interval.Some? then interval.value * MinuteMs else 0
  }

  /** r is the multiple of u nearest to x, ties going up (Math.round). */
  ghost predicate NearestMultiple(x: int, u: int, r: int)
    requires u > 0
  {
    r % u == 0 && 2 * (r - x) <= u && 2 * (x - r) < u
  }

  /** Math.round(interval / unit) for a positive unit. */
  function RoundedSteps(interval: int, unit: int): int
    requires unit > 0
  {
    (2 * interval + unit) / (2 * unit)
  }

  /** Math.round(interval / unit) * unit: the nearest multiple of the unit, at least the unit once reached. */
  function Rounded(interval: int, unit: int): (r: int)
    requires unit > 0
    ensures NearestMultiple(interval, unit, r)
    ensures interval >= unit ==> r >= unit
  {
    RoundedIsNearest(interval, unit);
    RoundedSteps(interval, unit) * unit
  }

  lemma RoundedIsNearest(x: int, u: int)
    requires u > 0
    ensures var r := RoundedSteps(x, u) * u;
      r % u == 0 && 2 * (r - x) <= u && 2 * (x - r) < u && (x >= u ==> r >= u)
  {
    var n := 2 * x + u;
    var q := n / (2 * u);
    assert n == (2 * u) * q + n % (2 * u) && 0 <= n % (2 * u) < 2 * u;
    assert (2 * u) * q == 2 * (q * u);
    MultipleMod(q, u);
    if x >= u {
      assert q * u >= u;
    }
  }

  /** A multiple of u leaves no remainder. */
  lemma MultipleMod(q: int, u: int)
    requires u > 0
    ensures (q * u) % u == 0
  {
    var m := (q * u) % u;
    var k := (q * u) / u;
    assert 0 <= m < u;
    assert q * u == k * u + m;
    var d := q - k;
    assert d * u == m by {
      assert q * u - k * u == (q - k) * u;
    }
  }

  /** The unit an interval of at least an hour is rounded to, checked top-down. */
  function Unit(interval: int): (u: int)
    requires interval >= HourValue
    ensures u in {YearValue, MonthValue, DayValue, HourValue} && u <= interval
  {
    if interval >= YearValue then YearValue
    else if interval >= MonthValue then MonthValue
    else if interval >= DayValue then DayValue
    else HourValue
  }

  /** getIntervalValue: round to the nearest multiple of the first unit the interval reaches. */
  function IntervalValue(interval: int): (r: int)
    ensures interval < HourValue ==> r == interval
    ensures interval >= YearValue ==> NearestMultiple(interval, YearValue, r)
    ensures MonthValue <= interval < YearValue ==> NearestMultiple(interval, MonthValue, r)
    ensures DayValue <= interval < MonthValue ==> NearestMultiple(interval, DayValue, r)
    ensures HourValue <= interval < DayValue ==> NearestMultiple(interval, HourValue, r)
    ensures interval >= HourValue ==> r >= Unit(interval)
  {
    if interval >= YearValue then Rounded(interval, YearValue)
    else if interval >= MonthValue then Rounded(interval, MonthValue)
    else if interval >= DayValue then Rounded(interval, DayValue)
    else if interval >= HourValue then Rounded(interval, HourValue)
    else interval
  }

  /**
   * A normalised interval stays in its unit's range or lands exactly on the
   * next unit, which is a multiple of every smaller unit.
   */
  lemma IntervalValueBucket(interval: int)
    requires interval >= HourValue
    ensures interval >= YearValue ==> IntervalValue(interval) >= YearValue
    ensures MonthValue <= interval < YearValue ==> MonthValue <= IntervalValue(interval) <= YearValue
    ensures DayValue <= interval < MonthValue ==> DayValue <= IntervalValue(interval) <= MonthValue
    ensures HourValue <= interval < DayValue ==> HourValue <= IntervalValue(interval) <= DayValue
  {
  }

  /** Normalising twice is normalising once. */
  lemma IntervalValueIdempotent(interval: int)
    ensures IntervalValue(IntervalValue(interval)) == IntervalValue(interval)
  {
    var r := IntervalValue(interval);
    if interval >= HourValue {
      IntervalValueBucket(interval);
      if r >= YearValue {
        assert r % YearValue == 0 by {
          if interval < YearValue { assert r == YearValue; }
        }
        assert RoundedSteps(r, YearValue) == r / YearValue;
      } else if r >= MonthValue {
        assert r % MonthValue == 0 by {
          if interval < MonthValue { assert r == MonthValue; }
        }
        assert RoundedSteps(r, MonthValue) == r / MonthValue;
      } else if r >= DayValue {
        assert r % DayValue == 0 by {
          if interval < DayValue { assert r == DayValue; }
        }
        assert RoundedSteps(r, DayValue) == r / DayValue;
      } else {
        assert RoundedSteps(r, HourValue) == r / HourValue;
      }
    }
  }

  /**
   * getIntervalCronValue: a cron step expression for the same unit
   * IntervalValue picks, whose step N times the unit is the normalised
   * interval; below an hour, a step of raw minutes.
   */
  function IntervalCronValue(interval: int): (r: string)
    ensures interval >= YearValue ==>
      r == "00 00 00 00 */" + IntToString(IntervalValue(interval) / YearValue)
    ensures MonthValue <= interval < YearValue ==>
      r == "00 00 00 */" + IntToString(IntervalValue(interval) / MonthValue) + " *"
    ensures DayValue <= interval < MonthValue ==>
      r == "00 00 */" + IntToString(IntervalValue(interval) / DayValue) + " * *"
    ensures HourValue <= interval < DayValue ==>
      r == "00 */" + IntToString(IntervalValue(interval) / HourValue) + " * * *"
    ensures interval < HourValue ==> r == "*/" + IntToString(interval) + " * * * *"
  {
    if interval >= YearValue then
      "00 00 00 00 */" + IntToString(RoundedSteps(interval, YearValue))
    else if interval >= MonthValue then
      "00 00 00 */" + IntToString(RoundedSteps(interval, MonthValue)) + " *"
    else if interval >= DayValue then
      "00 00 */" + IntToString(RoundedSteps(interval, DayValue)) + " * *"
    else if interval >= HourValue then
      "00 */" + IntToString(RoundedSteps(interval, HourValue)) + " * * *"
    else
      "*/" + IntToString(interval) + " * * * *"
  }

  /** The step of the cron expression is a positive count of units whose product is the normalised interval. */
  lemma IntervalCronStep(interval: int)
    requires interval >= HourValue
    ensures var u := Unit(interval);
      IntervalValue(interval) / u >= 1 && IntervalValue(interval) / u * u == IntervalValue(interval)
  {
  }

  /** The same rule for an optional interval: a missing one prints as the JS word for it. */
  function IntervalCronOf(interval: Option<int>, missing: string): (r: string)
    ensures interval.Some? ==> r == IntervalCronValue(interval.value)
    ensures interval.None? ==> r == "*/" + missing + " * * * *"
  {
    match interval
    case Some(i) => IntervalCronValue(i)
    case None => "*/" + missing + " * * * *"
  }

  /** The i-th piece of a split, or the text of `undefined` when there is none. */
  function PieceText(parts: seq<string>, i: nat): string
  {
    if i < |parts| then parts[i] else "undefined"
  }

  /** getCronValue: the trigger expression(s) for a kind; nothing for an unknown kind. */
  function CronValue(kind: CronKind, time: string, interval: Option<int>,
                     formatDate: string -> string): (r: Option<CronValues>)
    ensures r.None? <==> kind.Unknown?
    ensures r.Some? ==> (r.value.cronInterval.Some? <==> kind == IntervalWithStartDate)
    ensures kind == Interval ==> r.Some? && r.value.cron == IntervalCronOf(interval, "undefined")
    ensures kind == Once || kind == IntervalWithStartDate ==> r.Some? && r.value.cron == formatDate(time)
    ensures kind == IntervalWithStartDate ==> r.value.cronInterval == Some(IntervalCronOf(interval, "undefined"))
  {
    match kind
    case Interval => Some(CronValues(IntervalCronOf(interval, "undefined"), None))
    case Once => Some(CronValues(formatDate(time), None))
    case OnceADay =>
      var parts := Split(time, ':');
      Some(CronValues(PieceText(parts, 1) + " " + PieceText(parts, 0) + " * * *", None))
    case IntervalWithStartDate =>
      Some(CronValues(formatDate(time), Some(IntervalCronOf(interval, "undefined"))))
    case Unknown(_) => None
  }

  /** ONCE_A_DAY "HH:MM" becomes "MM HH * * *", from the literal pieces of the split. */
  lemma OnceADayCron(hours: string, minutes: string, interval: Option<int>, formatDate: string -> string)
    requires ':' !in hours && ':' !in minutes
    ensures CronValue(OnceADay, hours + ":" + minutes, interval, formatDate)
         == Some(CronValues(minutes + " " + hours + " * * *", None))
  {
    SplitAtSeparator(hours, ':', minutes);
    SplitNoSeparator(minutes, ':');
    assert hours + ":" + minutes == hours + [':'] + minutes;
  }

  /** A daily time without a colon leaves the minutes field as the text of `undefined`. */
  lemma OnceADayCronWithoutColon(hours: string, interval: Option<int>, formatDate: string -> string)
    requires ':' !in hours
    ensures CronValue(OnceADay, hours, interval, formatDate)
         == Some(CronValues("undefined " + hours + " * * *", None))
  {
    SplitNoSeparator(hours, ':');
    assert PieceText([hours], 1) + " " + PieceText([hours], 0) + " * * *" == "undefined " + hours + " * * *";
  }

  function HoursOf(now: int): int { (now % DayMs) / HourMs }

  function MinutesOf(now: int): int { (now % HourMs) / MinuteMs }

  /**
   * Today with hours and minutes set from "HH:MM" and seconds set to 0,
   * keeping the milliseconds of now. moment's set ignores a NaN value, so
   * a piece that is not a number keeps the current hour or minute; values
   * out of range carry over, as Date.setHours does.
   */
  function DailyStart(time: string, now: int): int
  {
    var parts := Split(time, ':');
    var h := JsNumber(parts[0]);
    var m := if |parts| > 1 then JsNumber(parts[1]) else None;
    var hours := if h.Some? then h.value else HoursOf(now);
    var minutes := if m.Some? then m.value else MinutesOf(now);
    now - now % DayMs + hours * HourMs + minutes * MinuteMs + now % 1000
  }

  /** getInitNextValue: the first fire time for a kind; an unknown kind is an error. */
  function InitNextValue(kind: CronKind, time: string, interval: Option<int>, now: int,
                         parseDate: string -> Instant): (r: Result<Instant, SchedulerError>)
    ensures r.Failure? <==> kind.Unknown?
    ensures r.Failure? ==> r.error == StartTimeError
    ensures kind == Interval ==> r == Success(At(now + MinutesMs(interval)))
    ensures kind == Once || kind == IntervalWithStartDate ==> r == Success(parseDate(time))
    ensures kind == OnceADay ==> r.Success? && r.value.At?
  {
    match kind
    case Interval => Success(At(now + MinutesMs(interval)))
    case OnceADay =>
      var start := DailyStart(time, now);
      Success(At(if now > start then start + DayMs else start))
    case Once => Success(parseDate(time))
    case IntervalWithStartDate => Success(parseDate(time))
    case Unknown(_) => Failure(StartTimeError)
  }

  /**
   * For a valid "H:M" the first daily fire is at H:M:00 (with the
   * milliseconds of now), today unless now is strictly later, so it lies
   * within one day from now.
   */
  lemma OnceADayInitNext(h: nat, m: nat, hours: string, minutes: string, interval: Option<int>,
                         now: int, parseDate: string -> Instant)
    requires h < 24 && m < 60
    requires ':' !in hours && ':' !in minutes
    requires JsNumber(hours) == Some(h as int) && JsNumber(minutes) == Some(m as int)
    ensures var r := InitNextValue(OnceADay, hours + ":" + minutes, interval, now, parseDate);
      var start := now - now % DayMs + h * HourMs + m * MinuteMs + now % 1000;
      && r == Success(At(if now > start then start + DayMs else start))
      && now <= r.value.ms < now + DayMs
      && (r.value.ms - now % 1000) % DayMs == h * HourMs + m * MinuteMs
  {
    var time := hours + ":" + minutes;
    SplitAtSeparator(hours, ':', minutes);
    SplitNoSeparator(minutes, ':');
    assert time == hours + [':'] + minutes;
    assert Split(time, ':') == [hours, minutes];
    DailyStartBounds(h * HourMs + m * MinuteMs, now);
  }

  /**
   * A daily time written from numbers, `${h}:${m}`: its trigger is
   * "m h * * *" and its first fire is the next h:m:00 on or after now.
   */
  lemma DailyTimeFromNumbers(h: nat, m: nat, interval: Option<int>, now: int,
                             formatDate: string -> string, parseDate: string -> Instant)
    requires h < 24 && m < 60
    ensures var time := NatToString(h) + ":" + NatToString(m);
      var r := InitNextValue(OnceADay, time, interval, now, parseDate).value;
      && CronValue(OnceADay, time, interval, formatDate)
         == Some(CronValues(NatToString(m) + " " + NatToString(h) + " * * *", None))
      && now <= r.ms < now + DayMs
      && (r.ms - now % 1000) % DayMs == h * HourMs + m * MinuteMs
  {
    var hours, minutes := NatToString(h), NatToString(m);
    var time := hours + ":" + minutes;
    DigitsExclude(hours, ':');
    DigitsExclude(minutes, ':');
    assert CronValue(OnceADay, time, interval, formatDate)
        == Some(CronValues(minutes + " " + hours + " * * *", None)) by {
      OnceADayCron(hours, minutes, interval, formatDate);
    }
    var r := InitNextValue(OnceADay, time, interval, now, parseDate).value;
    assert now <= r.ms < now + DayMs && (r.ms - now % 1000) % DayMs == h * HourMs + m * MinuteMs by {
      JsNumberOfNatToString(h);
      JsNumberOfNatToString(m);
      OnceADayInitNext(h, m, hours, minutes, interval, now, parseDate);
    }
  }

  /** The arithmetic of the daily start: a time-of-day offset moved into [now, now + 1 day). */
  lemma DailyStartBounds(offset: int, now: int)
    requires 0 <= offset <= 23 * HourMs + 59 * MinuteMs
    ensures var start := now - now % DayMs + offset + now % 1000;
      var r := if now > start then start + DayMs else start;
      now <= r < now + DayMs && (r - now % 1000) % DayMs == offset
  {
    var base := now - now % DayMs;
    var ms := now % 1000;
    var start := base + offset + ms;
    assert ms <= now % DayMs by {
      var k := now / DayMs;
      assert now == k * DayMs + now % DayMs;
      assert now % DayMs == now - k * 86400 * 1000;
    }
    assert base % DayMs == 0;
    assert (base + offset) % DayMs == offset;
    assert (base + DayMs + offset) % DayMs == offset;
  }

  /**
   * getPastNextTime: the next fire after an outcome advances the stored
   * dateNext by the stored interval (the two interval kinds), by one day
   * (daily) or not at all (once); nothing for an unknown kind.
   */
  function PastNextTime(kind: CronKind, dateNext: Instant, interval: Option<int>): (r: Option<Instant>)
    ensures r.None? <==> kind.Unknown?
    ensures r.Some? ==> (r.value.At? <==> dateNext.At?)
    ensures r.Some? && dateNext.At? ==>
      r.value.ms - dateNext.ms == (if kind == OnceADay then DayMs
                                   else if kind == Once then 0
                                   else MinutesMs(interval))
  {
    match kind
    case Interval => Some(AddMs(dateNext, MinutesMs(interval)))
    case OnceADay => Some(AddMs(dateNext, DayMs))
    case Once => Some(dateNext)
    case IntervalWithStartDate => Some(AddMs(dateNext, MinutesMs(interval)))
    case Unknown(_) => None
  }

  function AddMs(t: Instant, delta: int): Instant
  {
    match t
    case At(ms) => At(ms + delta)
    case NoDate => NoDate
  }

  /** A daily task keeps firing at the time of day its first fire was set to. */
  lemma DailyTimeOfDayKept(time: string, interval: Option<int>, now: int, parseDate: string -> Instant)
    ensures var first := InitNextValue(OnceADay, time, interval, now, parseDate).value;
      var next := PastNextTime(OnceADay, first, interval).value;
      next.At? && next.ms % DayMs == first.ms % DayMs && next.ms == first.ms + DayMs
  {
  }

  /**
   * An INTERVAL task's first gap is the raw interval while every following
   * one is the stored, normalised interval.
   */
  lemma IntervalGaps(raw: int, now: int, time: string, parseDate: string -> Instant)
    requires raw >= HourValue
    ensures var first := InitNextValue(Interval, time, Some(raw), now, parseDate).value;
      var next := PastNextTime(Interval, first, Some(IntervalValue(raw))).value;
      first == At(now + raw * MinuteMs) && next == At(first.ms + IntervalValue(raw) * MinuteMs)
  {
  }

  /** ENV: NODE_ENV, or "develop" when it is unset or empty. */
  function EnvName(nodeEnv: Option<string>): (env: string)
    ensures env != ""
    ensures nodeEnv.Some? && nodeEnv.value != "" ==> env == nodeEnv.value
  {
    if nodeEnv.Some? && nodeEnv.value != "" then nodeEnv.value else DefaultEnv
  }

  /** getTaskName: the queue name `ENV:code`. */
  function TaskName(env: string, code: string): string
  {
    env + ":" + code
  }

  /** The code a queue name of environment env belongs to, if it is one. */
  function QueueCode(env: string, name: string): (r: Option<string>)
    ensures r.Some? ==> TaskName(env, r.value) == name
  {
    var prefix := env + ":";
    if prefix <= name then Some(name[|prefix|..]) else None
  }

  /** The queue name is read back to its code, so distinct codes get distinct queues. */
  lemma QueueCodeOfTaskName(env: string, code: string)
    ensures QueueCode(env, TaskName(env, code)) == Some(code)
    ensures Contains(TaskName(env, code), env)
  {
    var name := TaskName(env, code);
    assert (env + ":") <= name;
    assert name[|env + ":"|..] == code;
    assert env <= name;
  }

  /** The job ttl: an explicit truthy ttl wins, else a truthy interval gives interval·60·1000 ms. */
  function JobTtl(ttl: Option<int>, interval: Option<int>): (r: Option<int>)
    ensures IsTruthy(ttl) ==> r == ttl
    ensures !IsTruthy(ttl) && IsTruthy(interval) ==> r == Some(interval.value * MinuteMs)
    ensures !IsTruthy(ttl) && !IsTruthy(interval) ==> r.None?
  {
    var fromTtl := if IsTruthy(ttl) then ttl else None;
    if IsTruthy(interval) && !IsTruthy(ttl) then Some(interval.value * 60 * 1000) else fromTtl
  }

  datatype JobState = Queued | Complete | Failed

  /** A job of the kue queue, with the task data the outcome handlers use. */
  datatype KueJob = KueJob(jobType: string, code: string, priority: int, ttl: Option<int>,
                           attempts: Option<int>, backoff: Option<int>, kind: CronKind,
                           createdAt: int, state: JobState)

  /** The clearJobs filter: a job in the given state whose type contains ENV and whose age reaches ttl. */
  predicate IsSwept(job: KueJob, state: JobState, env: string, ttl: int, now: int)
  {
    job.state == state && Contains(job.jobType, env) && now - job.createdAt >= ttl
  }

  function SweptIds(jobs: map<nat, KueJob>, state: JobState, env: string, ttl: int, now: int): (s: set<nat>)
    ensures s <= jobs.Keys
    ensures forall id :: id in jobs ==> (id in s <==> IsSwept(jobs[id], state, env, ttl, now))
  {
    set id | id in jobs && IsSwept(jobs[id], state, env, ttl, now)
  }

  /**
   * The filter tests `includes(ENV)`, not the `ENV:` prefix: a job of
   * another environment whose code mentions ENV is swept too.
   */
  lemma SweepReachesForeignNamespace(now: int)
    ensures var job := KueJob(TaskName("test", "develop-report"), "develop-report", 0, None, None, None,
                              Interval, now, Complete);
      QueueCode("develop", job.jobType).None? && IsSwept(job, Complete, "develop", 0, now)
  {
    var t := TaskName("test", "develop-report");
    assert t == "test:" + "develop-report";
    assert t[0] == 't';
    assert !("develop:" <= t);
    assert "develop" <= "develop-report";
    ContainsAfterPrefix("test:", "develop", "develop-report");
  }

  /** A job of this environment is swept exactly when it is in the state and old enough. */
  lemma SweepOwnNamespace(job: KueJob, state: JobState, env: string, ttl: int, now: int)
    requires QueueCode(env, job.jobType).Some?
    ensures IsSwept(job, state, env, ttl, now) <==> job.state == state && now - job.createdAt >= ttl
  {
    assert env <= job.jobType;
  }
}
