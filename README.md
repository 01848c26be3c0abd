# Task scheduler and structured logger, modelled in Dafny

This project models two parts of a NestJS back end.

**The task scheduler** (`SchedulerService`):
- It turns a task's schedule kind (interval, once, once a day, interval with a start date) into node-schedule trigger expressions and a first next-fire time.
- It arms those triggers in a registry of timers by name. The interval-with-start-date kind uses two stages: a primary timer `code` whose firing arms a second timer `code-interval`.
- On each fire it queues a kue job named `ENV:code`, with ttl, attempts and backoff.
- On a job's outcome it writes the result and the following next-fire time back into the task's row, deactivates one-shot tasks, and sweeps old terminal jobs of the environment.

**The structured logger** (`BaseLogger`):
- It is a builder over one `LoggerData` record. Every setter updates the record in place and returns the logger itself.
- The `*Log` methods set level, title and code, then emit one record per configured log type through log4js, or a single `LOG_TYPE_O` record when the logger is local.
- Each record's data comes from `LoggerFormatter.format(type)`. It reduces over the accessors that the `Format` class defines on its prototype and keeps those whose access list admits the type.
- Each accessor is one of the `ObjectFormat` / `StringFormat` / `NumberFormat` getter conversions. A getter reads a truthy async-local override first, otherwise the field's transform of the record. It passes the value through `replaceFile`, which substitutes placeholders for FormData, streams and buffers.

Modules:
- `Basics` (basics.dfy): Option, Result and Outcome.
- `JsText` (js_text.dfy): decimal rendering of integers (template literals), `String.split`, `Number()` of digit strings, and `includes`.
- `Schedule` (schedule_rules.dfy): the pure scheduling rules and the kue job record.
- `Scheduling` (scheduler_service.dfy): the `SchedulerService` class. Its fields are the timer registry, the task rows, and the kue jobs by id.
- `JsValues` (js_values.dfy): JavaScript values, truthiness, `||`, `typeof`, `String()`, object spread and optional member access.
- `FileReplace` (replace_file.dfy): `replaceFile`.
- `FieldFormats` (field_formats.dfy): the object, string and boolean getter conversions.
- `LogData` (logger_data.dfy): `LoggerData`, `Object.assign` and the field updates of the builder.
- `FormatTable` (format_table.dfy): the `Format` field table. Each field has a conversion, a transform of the record, and an optional access list.
- `Formatter` (logger_formatter.dfy): `LoggerFormatter.format` as the reduce over the prototype's keys.
- `Logging` (base_logger.dfy): the `BaseLogger` class and the log4js sink.

Modelling choices:
- Time is an integer count of milliseconds. The clock is a `now` parameter. Dates have no time zone.
  - An interval is a count of minutes, as in the code. moment's `add(n, 'minutes')` adds `n * 60000`.
  - "Once a day" keeps the current second's milliseconds, as moment's `set({hours, minutes, seconds: 0})` does. That is why the unit is milliseconds and not minutes: the "strictly later than today's start" test depends on it.
- Date parsing (`moment(time).toDate()`) and formatting (`moment(time).format()`) are function parameters of the service. `Instant.NoDate` stands for an invalid or null date. Adding to it gives it back.
- The node-schedule registry is a map from timer name to the rule and the action the timer runs. `Fire(name, now)` is the timer firing.
- The TypeORM rows are a map from task code to `TaskRecord`. The kue jobs are a map from job id to `KueJob`. Job outcomes are explicit calls (`OnJobEvent`).
- `ENV` is `EnvName(process.env.NODE_ENV)`. The two retention ttls of the configuration are constructor parameters.
- The reflection metadata of `@Access` is the access list in `FormatTable.Spec`. The async-local store read by `Logger.globalGet` is a `globals` map. The log4js logger is a `Sink` object whose `records` each `log()` call extends.
- `NumberFormat` uses `Number()` and NaN, so it is a function parameter (`toNumber`) of the logger.

Behaviour of the code worth noting:
- `getInitNextValue` for INTERVAL adds the raw interval, not the normalised one.
- Cron fields are written `00`, not `0`. The interval is stored normalised only when it is truthy.
- `clearJobs` tests `job.type.includes(ENV)`, a substring test. `Schedule.SweepReachesForeignNamespace` shows a job of another environment that it removes: environment `test`, task `develop-report`.
- `addRabbitMq` writes `externalRabbitmq` from `rabbitmq`.
- `createTask` never inserts a row. `getTaskData` returning nothing makes `task.isActive = true` throw, so a missing row is a creation error.

## Model

| member | source | states |
|---|---|---|
| Schedule.Rounded | scheduler/src/modules/scheduler/scheduler.service.ts:113-127 | `Math.round(i / u) * u` is a multiple of u at most half a unit from i (ties up), and at least u once i reaches u |
| Schedule.Unit | scheduler/src/modules/scheduler/scheduler.service.ts:112-127 | for an interval of at least an hour, one of the year, month, day and hour units, and no larger than the interval |
| Schedule.IntervalValue | scheduler/src/modules/scheduler/scheduler.service.ts:112-130 | below 60 the interval is unchanged; otherwise it is the nearest multiple (half-up) of the first unit it reaches, and at least that unit |
| Schedule.IntervalValueBucket | scheduler/src/modules/scheduler/scheduler.service.ts:112-130 | a normalised interval stays within its unit's range or lands exactly on the next unit |
| Schedule.IntervalValueIdempotent | scheduler/src/modules/scheduler/scheduler.service.ts:112-130 | normalising a normalised interval changes nothing |
| Schedule.IntervalCronValue | scheduler/src/modules/scheduler/scheduler.service.ts:132-150 | picks the same bucket as the normalisation and emits exactly `00 00 00 00 */N`, `00 00 00 */N *`, `00 00 */N * *`, `00 */N * * *` (N = normalised / unit) or `*/i * * * *` |
| Schedule.IntervalCronStep | scheduler/src/modules/scheduler/scheduler.service.ts:132-150 | for i ≥ 60 the step N is at least 1 and N · unit equals the normalised interval |
| Schedule.IntervalCronOf | scheduler/src/modules/scheduler/scheduler.service.ts:132-150 | a missing interval renders as the text of the JavaScript value in `*/… * * * *`; a present one gives the cron of `IntervalCronValue`, whose step `IntervalCronStep` ties to the normalised interval |
| Schedule.CronValue | scheduler/src/modules/scheduler/scheduler.service.ts:152-171 | nothing exactly for an unknown kind; a second expression exactly for interval-with-start-date; interval gives the step cron, once and interval-with-start-date the formatted time |
| Schedule.OnceADayCron | scheduler/src/modules/scheduler/scheduler.service.ts:160-163 | `"HH:MM"` becomes `"MM HH * * *"` with the literal substrings of the split |
| Schedule.OnceADayCronWithoutColon | scheduler/src/modules/scheduler/scheduler.service.ts:160-163 | a time without a colon puts `undefined` in the minute field |
| Schedule.InitNextValue | scheduler/src/modules/scheduler/scheduler.service.ts:219-270 | an unknown kind is the start-time error; interval is now plus the raw minutes; once and interval-with-start-date the parsed time; once a day a concrete instant |
| Schedule.OnceADayInitNext | scheduler/src/modules/scheduler/scheduler.service.ts:225-244 | today at HH:MM:00 (keeping the milliseconds), plus one day exactly when now is strictly later; the result lies in [now, now + 1 day) at that time of day |
| Schedule.DailyTimeFromNumbers | scheduler/src/modules/scheduler/scheduler.service.ts:225-244 | a daily time written as `${h}:${m}` is read back by `Number()`, gets the trigger `m h * * *` (as at lines 160-163) and a first fire in [now, now + 1 day) at h:m:00 |
| Schedule.DailyStartBounds | scheduler/src/modules/scheduler/scheduler.service.ts:229-243 | the roll-forward rule puts any time of day in [now, now + 1 day) |
| Schedule.PastNextTime | scheduler/src/modules/scheduler/scheduler.service.ts:431-460 | nothing for an unknown kind; otherwise dateNext advanced by the stored interval (both interval kinds), one day (once a day) or not at all (once), a null date staying null |
| Schedule.DailyTimeOfDayKept | scheduler/src/modules/scheduler/scheduler.service.ts:449-452 | after the first daily fire time, the following one is exactly a day later at the same time of day |
| Schedule.IntervalGaps | scheduler/src/modules/scheduler/scheduler.service.ts:445-448 | the first interval fire is now plus the raw interval; every following one is the previous plus the normalised interval |
| Schedule.EnvName | scheduler/src/modules/scheduler/scheduler.service.ts:21 | a non-empty NODE_ENV is used as is, and the environment name is never empty |
| Schedule.QueueCode | scheduler/src/modules/scheduler/scheduler.service.ts:469-471 | a code recovered from a queue name is one whose `ENV:code` is that name |
| Schedule.QueueCodeOfTaskName | scheduler/src/modules/scheduler/scheduler.service.ts:469-471 | `ENV:code` gives back code, and contains ENV |
| Schedule.JobTtl | scheduler/src/modules/scheduler/scheduler.service.ts:52-58 | a truthy ttl wins; otherwise a truthy interval gives interval · 60 · 1000; otherwise no ttl |
| Schedule.SweptIds | scheduler/src/modules/scheduler/scheduler.service.ts:488-500 | exactly the jobs in the state whose type contains ENV and whose age is at least the ttl |
| Schedule.SweepReachesForeignNamespace | scheduler/src/modules/scheduler/scheduler.service.ts:491 | a job outside ENV's namespace can match the substring test and be removed |
| Schedule.SweepOwnNamespace | scheduler/src/modules/scheduler/scheduler.service.ts:490-494 | in ENV's own namespace a job is swept iff it is in the state and old enough |
| Scheduling.IntervalName | scheduler/src/modules/scheduler/scheduler.service.ts:108 | `code-interval` differs from code and extends it |
| Scheduling.StoredInterval | scheduler/src/modules/scheduler/scheduler.service.ts:328 | a truthy interval is stored normalised, anything else as null; the stored value is a fixed point of the normalisation (`IntervalValueIdempotent`) |
| Scheduling.CreatedRecord | scheduler/src/modules/scheduler/scheduler.service.ts:322-332 | the saved row is active with the new next time, kind, priority, cron and stored interval; data replaced only when task data was given; dateEnd and status kept |
| Scheduling.PrimaryJob | scheduler/src/modules/scheduler/scheduler.service.ts:346-349 | the timer under code has the primary rule; it arms `code-interval` with the interval cron exactly in the two-stage case, and runs the queue otherwise |
| Scheduling.CreationError | scheduler/src/modules/scheduler/scheduler.service.ts:314-334 | creation succeeds iff the cron type and priority exist, the kind is known and the row exists; otherwise the first failure in lookup order: cron type, priority, cron value, row |
| Scheduling.NewJob | scheduler/src/modules/scheduler/scheduler.service.ts:46-66 | the job is named `ENV:code` with the task's priority, the ttl rule, and attempts and backoff only when truthy |
| Scheduling.SavedResult | scheduler/src/modules/scheduler/scheduler.service.ts:398-429 | writes dateEnd = now, status and the following next time (kept when the kind is unknown), and no other field |
| Scheduling.Deactivated | scheduler/src/modules/scheduler/scheduler.service.ts:380-383 | the row of code gets isActive = false and nothing else changes |
| Scheduling.AfterOutcome | scheduler/src/modules/scheduler/scheduler.service.ts:70-100 | after a terminal outcome the row has the status and dateEnd, and stays active iff it was active and the kind is not once; other rows are unchanged |
| Scheduling.SchedulerService.constructor | scheduler/src/modules/scheduler/scheduler.service.ts:19-35 | no timers, no jobs, the given rows and catalogs, ENV from NODE_ENV |
| Scheduling.SchedulerService.CancelTask | scheduler/src/modules/scheduler/scheduler.service.ts:367-396 | removes the timers `code` and `code-interval` where present, and deactivates the row only when not isOnlyCancelCron |
| Scheduling.SchedulerService.CreateTaskToTask | scheduler/src/modules/scheduler/scheduler.service.ts:103-110 | registers under code a timer whose firing only arms `code-interval` |
| Scheduling.SchedulerService.CreateTask | scheduler/src/modules/scheduler/scheduler.service.ts:304-365 | old timers are cancelled even when creation then fails with the cause; on success the row is saved and the timer armed, two-stage exactly when there is a second expression |
| Scheduling.SchedulerService.Start | scheduler/src/modules/scheduler/scheduler.service.ts:272-302 | a missing row is an error; an active row is armed (two-stage for interval-with-start-date), an inactive one arms nothing |
| Scheduling.SchedulerService.CreateQueue | scheduler/src/modules/scheduler/scheduler.service.ts:37-68 | adds one new job under a fresh id and keeps every id below the next one |
| Scheduling.SchedulerService.Fire | scheduler/src/modules/scheduler/scheduler.service.ts:107-109 | an unknown timer does nothing; a two-stage primary only registers `code-interval`, and no job; a queue timer adds exactly one job |
| Scheduling.SchedulerService.SaveJobResult | scheduler/src/modules/scheduler/scheduler.service.ts:398-429 | a missing row is an error; otherwise only that row changes, to its saved result |
| Scheduling.SchedulerService.DisableTask | scheduler/src/modules/scheduler/scheduler.service.ts:473-486 | the row is deactivated, nothing else changes |
| Scheduling.SchedulerService.ClearJobs | scheduler/src/modules/scheduler/scheduler.service.ts:488-500 | removes exactly the swept jobs |
| Scheduling.SchedulerService.OnJobEvent | scheduler/src/modules/scheduler/scheduler.service.ts:70-100 | a failed attempt touches nothing; complete and failed sweep old jobs of that state, save status true or false, and deactivate only a once task |
| JsValues.Or | logger/base-logger/decorators/object.decorator.ts:10-11 | `a \|\| b` is a when a is truthy, else b; the getters' override rule built on it is `FieldFormats.OverrideWins` / `FalsyOverrideIgnored` |
| JsValues.TypeOf | logger/base-logger/decorators/object.decorator.ts:19 | `typeof` is "object" exactly for null, objects, arrays and the FormData, stream and buffer objects |
| JsValues.Member | logger/base-logger/format.ts:58 | `v?.p` is the property when v is an object that has it, undefined otherwise; `FormatTable.Transform` uses it to show unset sections give undefined |
| JsValues.Merge | logger/base-logger/logger.ts:93-96 | `{...a, ...b}` has the keys of both, b's value winning on a shared key |
| JsValues.MergeIntoUndefined | logger/base-logger/logger.ts:93-96 | merging into an unset field gives the argument's own keys |
| JsValues.MergeIdempotent | logger/base-logger/logger.ts:93-96 | adding the same data twice is adding it once |
| FileReplace.ReplaceFile | logger/base-logger/tools/replace-file.tool.ts:5-19 | FormData gives `<file>`, any other stream `<stream>`, a buffer `<buffer>`, anything else itself; the result is never file-like |
| FileReplace.FormDataTakesFirstPlaceholder | logger/base-logger/tools/replace-file.tool.ts:6-16 | FormData is also a stream, and gets the first placeholder |
| FileReplace.ReplaceFileIdempotent | logger/base-logger/tools/replace-file.tool.ts:5-19 | replacing twice is replacing once |
| FileReplace.ReplaceFileChanges | logger/base-logger/tools/replace-file.tool.ts:5-19 | a value changes iff it is file-like, and then becomes a truthy string |
| FieldFormats.Raw | logger/base-logger/decorators/object.decorator.ts:10-11 | a truthy override wins over the transform; that no conversion then depends on the transform is `OverrideWins`, and that a falsy one is ignored is `FalsyOverrideIgnored` |
| FieldFormats.ObjectFormat | logger/base-logger/decorators/object.decorator.ts:9-30 | after replaceFile: undefined stays undefined, a non-object becomes `{root: value}`, an object without keys undefined, another object itself; null throws |
| FieldFormats.StringFormat | logger/base-logger/decorators/string.decorator.ts:9-20 | after replaceFile: undefined stays undefined, anything else is `String(value)`; its fixed point is `StringFormatFixedPoint`, its file placeholders `FileLikeConversions` |
| FieldFormats.BooleanFormat | logger/base-logger/decorators/boolean.decorator.ts:9-20 | after replaceFile: undefined stays undefined, anything else is `Boolean(value)`; a file-like value is true (`FileLikeConversions`) |
| FieldFormats.ObjectFormatShape | logger/base-logger/decorators/object.decorator.ts:15-29 | an object field is undefined or an object or array with at least one key |
| FieldFormats.ObjectFormatFixedPoint | logger/base-logger/decorators/object.decorator.ts:9-30 | converting an object field's value again changes nothing |
| FieldFormats.StringFormatFixedPoint | logger/base-logger/decorators/string.decorator.ts:9-20 | converting a string field's value again changes nothing |
| FieldFormats.OverrideWins | logger/base-logger/decorators/object.decorator.ts:10-11 | with a truthy override, no conversion depends on the transform |
| FieldFormats.FalsyOverrideIgnored | logger/base-logger/decorators/string.decorator.ts:10-11 | a falsy override is the same as none |
| FieldFormats.FileLikeConversions | logger/base-logger/decorators/boolean.decorator.ts:13-19 | files, streams and buffers give their placeholder as a string, true as a boolean, and `{root: placeholder}` as an object |
| FieldFormats.ObjectFormatWrapsPrimitives | logger/base-logger/decorators/object.decorator.ts:19-29 | a string and a buffer are wrapped under root, `{}` becomes undefined, null throws |
| LogData.InitialData | logger/base-logger/logger.data.ts:7-23 | a new record has every field unset and log types `[O, T]` |
| LogData.LevelName | logger/base-logger/logger.ts:186-219 | every level has a non-empty log4js method name |
| LogData.LevelNameInjective | logger/base-logger/logger.ts:186-219 | distinct levels have distinct names |
| LogData.Put | logger/base-logger/logger.ts:83-87 | writing one field changes only that field |
| LogData.Assign | logger/base-logger/logger.ts:40-44 | every value field the partial has (even undefined) replaces the field, the rest is kept; logTypes is replaced only when a list is given |
| LogData.AssignNeutral | logger/base-logger/logger.ts:40-44 | assigning a record's own values back changes nothing |
| LogData.AssignTwice | logger/base-logger/logger.ts:40-44 | two assigns are one assign of the union, the later partial winning |
| LogData.WithError | logger/base-logger/logger.ts:71-77 | message and stack from the error, isError true, no other field |
| LogData.WithEntry | logger/base-logger/logger.ts:186-219 | level named after the method, title and code set, no other field |
| LogData.Merged | logger/base-logger/logger.ts:92-167 | the field becomes its merge with the argument, the argument's keys winning; no other field changes |
| FormatTable.FieldNamedName | logger/base-logger/format.ts:15-148 | every field's property name leads back to that field, so the names are distinct |
| FormatTable.Transform | logger/base-logger/format.ts:15-148 | `isError ? x : undefined` and its negation, and `field?.p` of an unset field, give undefined |
| FormatTable.Override | logger/base-logger/decorators/object.decorator.ts:10 | a field with no stored value reads undefined |
| FormatTable.FieldValue | logger/base-logger/format.ts:15-148 | string and number fields never throw; an object field throws iff its replaced raw value is null |
| FormatTable.DetailsExclusive | logger/base-logger/format.ts:22-28 | without overrides, d_error gives the details only when isError and d_success only when not, never both |
| FormatTable.PersonalDetailsExclusive | logger/base-logger/format.ts:35-41 | the same rule for d_p_error and d_p_success with the personal details |
| FormatTable.EveryAccessListHasO | logger/base-logger/format.ts:22-142 | every access list admits LOG_TYPE_O |
| FormatTable.RestrictedToO | logger/base-logger/format.ts:61-142 | personal details, bodies, responses and headers are restricted to LOG_TYPE_O; details and stack to O and T |
| FormatTable.Unrestricted | logger/base-logger/format.ts:15-79 | level, trace_id, o_title, o_message, o_code, u_id, r_url and r_method have no access list |
| Formatter.NamesArePlain | logger/base-logger/logger.formatter.ts:20 | no field is named constructor or starts with `_` |
| Formatter.KeyNameInjective | logger/base-logger/logger.formatter.ts:24-27 | distinct prototype keys have distinct property names, so no kept field overwrites another |
| Formatter.KeptAccessor | logger/base-logger/logger.formatter.ts:17-22 | the constructor is never kept; an accessor is kept iff its access list is absent or holds the type |
| Formatter.AccessorOnPrototype | logger/base-logger/logger.formatter.ts:13-15 | every field of the table is a key of the prototype |
| Formatter.PrototypeKeysAre | logger/base-logger/logger.formatter.ts:13-15 | the constructor and every accessor of the table are keys of the prototype |
| Formatter.ReduceResult | logger/base-logger/logger.formatter.ts:16-28 | a reduce that does not throw yields the accumulator extended with the kept keys and their getter values |
| Formatter.ReduceThrows | logger/base-logger/logger.formatter.ts:16-28 | the reduce throws iff some kept key's getter throws |
| Formatter.ReduceAllThrows | logger/base-logger/logger.formatter.ts:15-28 | over a key list holding every accessor, the reduce throws iff some field admitted for the type throws |
| Formatter.ReduceAllFields | logger/base-logger/logger.formatter.ts:15-28 | over such a key list, the result holds exactly the admitted fields' names, under their getter values |
| Formatter.FormatThrows | logger/base-logger/logger.formatter.ts:11-29 | format throws iff some field admitted for the type throws |
| Formatter.FormatFields | logger/base-logger/logger.formatter.ts:11-29 | a field is in `format(t)` iff its access list admits t, under that field's getter value, and nothing else is in it |
| Formatter.OSuperset | logger/base-logger/format.ts:22-142 | the O record holds every field of any other type's record, with the same values, and throws whenever that one does |
| Formatter.UnrestrictedEverywhere | logger/base-logger/format.ts:15-79 | the unrestricted fields appear for every type |
| Formatter.RestrictedAbsentFromT | logger/base-logger/format.ts:61-142 | the O-only fields never appear for LOG_TYPE_T, while d_error and d_stack do |
| Logging.Formatted | logger/base-logger/logger.ts:222 | the formatter built from the record formats every type as `Format` does, so `Formatter.FormatFields` and `FormatThrows` describe each emitted record |
| Logging.Emit | logger/base-logger/logger.ts:236-242 | at most one record per log type |
| Logging.EmitShape | logger/base-logger/logger.ts:236-242 | record i is type i's formatted data at the level and the single timestamp; it stops short exactly where a format threw |
| Logging.EmitStops | logger/base-logger/logger.ts:236-242 | after a throwing format the remaining types emit nothing |
| Logging.EmitComplete | logger/base-logger/logger.ts:236-242 | with no format throwing, one record per type, in order |
| Logging.Sink.constructor | logger/base-logger/logger.ts:224 | a fresh sink holds no records |
| Logging.Sink.Write | logger/base-logger/logger.ts:236-242 | appends exactly the emission of the types |
| Logging.BaseLogger.constructor | logger/base-logger/logger.ts:22-28 | a fresh record with the given trace id |
| Logging.BaseLogger.Sub | logger/base-logger/logger.ts:31-37 | a new logger over a copy of the record with a fresh trace id, same options; the parent is unchanged |
| Logging.BaseLogger.Assign | logger/base-logger/logger.ts:40-44 | the record becomes the assign of the partial, and the logger itself is returned |
| Logging.BaseLogger.SetTypes | logger/base-logger/logger.ts:50-54 | the log types are replaced |
| Logging.BaseLogger.AddTypes | logger/base-logger/logger.ts:57-61 | the types are appended after the existing ones |
| Logging.BaseLogger.SetMessage | logger/base-logger/logger.ts:64-68 | only the message is set |
| Logging.BaseLogger.SetError | logger/base-logger/logger.ts:71-77 | message, stack and isError set as by the error, nothing else |
| Logging.BaseLogger.SetField | logger/base-logger/logger.ts:83-174 | setDetails … setRabbitMq replace their field only |
| Logging.BaseLogger.AddField | logger/base-logger/logger.ts:92-167 | addDetails … addExternalRabbitMq merge the argument into their field, the argument's keys winning |
| Logging.BaseLogger.AddRabbitMq | logger/base-logger/logger.ts:177-184 | writes `{...rabbitmq, ...data}` into externalRabbitmq and leaves rabbitmq unchanged |
| Logging.BaseLogger.Emitted | logger/base-logger/logger.ts:221-243 | a local logger emits at most one record, of type O |
| Logging.BaseLogger.Log | logger/base-logger/logger.ts:221-243 | appends to the sink exactly the emission of the current record: for LOG_TYPE_O alone when local, else for each of its log types |
| Logging.BaseLogger.LevelLog | logger/base-logger/logger.ts:186-219 | sets level, title and code, then emits from the updated record |
| Logging.BaseLogger.TraceLog | logger/base-logger/logger.ts:186-191 | level trace, title and code, then log |
| Logging.BaseLogger.InfoLog | logger/base-logger/logger.ts:193-198 | level info, title and code, then log |
| Logging.BaseLogger.ErrorLog | logger/base-logger/logger.ts:200-205 | level error, title and code, then log |
| Logging.BaseLogger.FatalLog | logger/base-logger/logger.ts:207-212 | level fatal, title and code, then log |
| Logging.BaseLogger.WarnLog | logger/base-logger/logger.ts:214-219 | level warn, title and code, then log |

## Left out

- Real timers: node-schedule's cron parsing and firing times are not modelled. A timer fires when `Fire` is called, and a once timer is not removed after it fires.
- kue: priority ordering, ttl enforcement, retries and backoff, `job.save`, and `rangeByState` / `remove` are not modelled. Outcomes are `OnJobEvent` calls, and the sweep is applied at once, not after the asynchronous callback.
- The `success`, `cbError` and `cbErrorAttempts` callbacks are left out, because they call code outside the service.
- TypeORM is a map. Database failures, and the `catch` handlers that log and rethrow them as `CustomHttpException`, are not modelled.
- Error logging through the logger inside the service is not modelled, nor is the `Logger.log` console output, because both are output only.
- Errors are modelled as the cause (`SchedulerError`), not the exception's HTTP status and text.
- moment: parsing, formatting, time zones and DST are function parameters or left out. A day is 86 400 000 ms.
- `Schedule.InitNextValue`: its own contract only says the once-a-day result is some instant. The exact instant is stated by `Schedule.OnceADayInitNext` when hours and minutes parse.
- `JsText.JsNumber` gives the value of digit strings only. Other numeric syntaxes (signs, decimals, exponents, whitespace) are not modelled, because they are floating-point parsing.
- Intervals are integers: fractional intervals, NaN and the floating-point result of `Math.round` are not modelled.
- `JSON.stringify(specificTaskData)`: the task data is taken as already serialised text.
- Interleaving of the asynchronous handlers is not modelled; every call runs to completion.
- The number decorator is the `toNumber` parameter, because it is `Number()` with NaN detection, which is floating-point behaviour.
- The getters' setters discard assignments. In the model the fields are computed and cannot be assigned, so every read gives the getter's value.
- Spreading a FormData, stream or buffer object is taken to give no own keys. Member access on strings (such as `length`) gives undefined.
- `LogData.Assign`: an `assign` whose partial carries `logTypes: undefined` is not modelled, because `logTypes` is always a list in the model. In the code it clears the list, and the next non-local `log()` then throws at `logTypes.forEach`.
- Key order is not modelled: records are maps, so the order of keys in the JSON output is not captured. Undefined values are kept in the map; the JSON layout drops them.
- The class fields of `Format` are assumed not to shadow the prototype accessors, as with TypeScript's legacy class-field emission.
- log4js configuration, categories and layouts are left out. `log()` appends to a sink.
- uuid generation is a `traceId` parameter.
- `globalGet`, `globalSet` and `globalRun`: the async-local store is an explicit `globals` map.
