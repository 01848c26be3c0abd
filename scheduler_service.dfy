/**
 * The stateful part of the scheduler service: task upsert, cancellation,
 * start-up arming, the two-stage arming of INTERVAL_WITH_START_DATE, job
 * creation and the outcome handlers.
 *
 * The node-schedule registry `scheduledJobs` is `registry`, a map from job
 * name to the armed job; the task table is `store`, a map from task code
 * to its row; the kue queue is `jobs`. Timer firing and queue outcomes are
 * explicit method calls, "now" is a parameter of every call that reads
 * the clock.
 */
module Scheduling {
  import opened Basics
  import opened JsText
  import opened Schedule

  /** The attempts, ttl and repeatDelay a caller passes with a task. */
  datatype QueueOptions = QueueOptions(attempts: Option<int>, ttl: Option<int>, repeatDelay: Option<int>)

  /** The `data` of a createTask request; specificTaskData is already serialised. */
  datatype TaskInput = TaskInput(time: string, cronTypeId: int, priorityId: int,
                                 specificTaskData: Option<string>, interval: Option<int>)

  /** The task object a job function closes over: what createQueue reads from it. */
  datatype TaskSnapshot = TaskSnapshot(code: string, kind: CronKind, priority: int, interval: Option<int>)

  /** What a timer does when it fires. */
  datatype JobAction =
    | RunQueue(task: TaskSnapshot, opts: QueueOptions)
    | ArmInterval(name: string, rule: string, task: TaskSnapshot, opts: QueueOptions)

  datatype ScheduledJob = ScheduledJob(rule: string, action: JobAction)

  /** A row of the task table (SchedulerData with its cron type and priority code). */
  datatype TaskRecord = TaskRecord(isActive: bool, dateNext: Instant, dateEnd: Instant,
                                   status: Option<bool>, cronValue: string, interval: Option<int>,
                                   data: Option<string>, kind: CronKind, priority: int)

  /** The three job events kue emits. */
  datatype JobEvent = Completed | FailedAttempt(doneAttempts: nat) | FailedFinal

  /** The name of the repeating job of a two-stage task. */
  function IntervalName(code: string): (name: string)
    ensures name != code && code <= name
  {
    code + "-interval"
  }

  /** The interval createTask stores: normalised when truthy, null otherwise. */
  function StoredInterval(interval: Option<int>): (r: Option<int>)
    ensures IsTruthy(interval) ==> r == Some(IntervalValue(interval.value))
    ensures !IsTruthy(interval) ==> r.None?
  {
    if IsTruthy(interval) then Some(IntervalValue(interval.value)) else None
  }

  /** The row createTask saves over the existing one. */
  function CreatedRecord(row: TaskRecord, kind: CronKind, priority: int, cron: string,
                         next: Instant, input: TaskInput): (r: TaskRecord)
    ensures r.isActive && r.dateNext == next && r.kind == kind && r.priority == priority
    ensures r.cronValue == cron && r.interval == StoredInterval(input.interval)
    ensures r.data == (if input.specificTaskData.Some? then input.specificTaskData else row.data)
    ensures r.dateEnd == row.dateEnd && r.status == row.status
  {
    row.(isActive := true, dateNext := next, kind := kind, priority := priority, cronValue := cron,
         interval := StoredInterval(input.interval),
         data := if input.specificTaskData.Some? then input.specificTaskData else row.data)
  }

  /**
   * The primary job armed for a task: for the two-stage path it only arms
   * `code-interval` with the normalised interval's cron (null prints as
   * "null"); otherwise it creates a queue job.
   */
  function PrimaryJob(task: TaskSnapshot, rule: string, twoStage: bool, opts: QueueOptions): (j: ScheduledJob)
    ensures j.rule == rule
    ensures j.action.ArmInterval? <==> twoStage
    ensures j.action.task == task && j.action.opts == opts
    ensures twoStage ==> (j.action.name == IntervalName(task.code)
                          && j.action.rule == IntervalCronOf(task.interval, "null"))
  {
    if twoStage then ScheduledJob(rule, ArmInterval(IntervalName(task.code), IntervalCronOf(task.interval, "null"), task, opts))
    else ScheduledJob(rule, RunQueue(task, opts))
  }

  /** The first error createTask meets, in the order the source meets them. */
  function CreationError(cronTypes: map<int, CronKind>, priorities: map<int, int>,
                         store: map<string, TaskRecord>, taskName: string, input: TaskInput,
                         formatDate: string -> string): (e: Option<SchedulerError>)
    ensures e.None? <==> (input.cronTypeId in cronTypes && input.priorityId in priorities
                          && taskName in store && !cronTypes[input.cronTypeId].Unknown?)
    ensures input.cronTypeId !in cronTypes ==> e == Some(CronTypeNotFound)
    ensures input.cronTypeId in cronTypes && input.priorityId !in priorities ==> e == Some(PriorityNotFound)
    ensures (input.cronTypeId in cronTypes && input.priorityId in priorities
             && cronTypes[input.cronTypeId].Unknown?) ==> e == Some(NoCronValue)
    ensures (input.cronTypeId in cronTypes && input.priorityId in priorities
             && !cronTypes[input.cronTypeId].Unknown? && taskName !in store) ==> e == Some(NoTaskRecord)
  {
    if input.cronTypeId !in cronTypes then Some(CronTypeNotFound)
    else if input.priorityId !in priorities then Some(PriorityNotFound)
    else if CronValue(cronTypes[input.cronTypeId], input.time, input.interval, formatDate).None? then Some(NoCronValue)
    else if taskName !in store then Some(NoTaskRecord)
    else None
  }

  /** The job createQueue puts on the queue. */
  function NewJob(env: string, task: TaskSnapshot, opts: QueueOptions, now: int): (job: KueJob)
    ensures QueueCode(env, job.jobType) == Some(task.code)
    ensures job.code == task.code && job.priority == task.priority && job.kind == task.kind
    ensures job.ttl == JobTtl(opts.ttl, task.interval)
    ensures job.attempts == (if IsTruthy(opts.attempts) then opts.attempts else None)
    ensures job.backoff == (if IsTruthy(opts.repeatDelay) then opts.repeatDelay else None)
    ensures job.createdAt == now && job.state == Queued
  {
    QueueCodeOfTaskName(env, task.code);
    KueJob(TaskName(env, task.code), task.code, task.priority, JobTtl(opts.ttl, task.interval),
           if IsTruthy(opts.attempts) then opts.attempts else None,
           if IsTruthy(opts.repeatDelay) then opts.repeatDelay else None,
           task.kind, now, Queued)
  }

  /**
   * The row after saveJobResult: dateEnd is now, status is the outcome and
   * dateNext is advanced by getPastNextTime (an unknown kind leaves it, the
   * update skipping an undefined value); nothing else changes.
   */
  function SavedResult(row: TaskRecord, status: bool, now: int): (r: TaskRecord)
    ensures r.dateEnd == At(now) && r.status == Some(status)
    ensures r.dateNext == (var next := PastNextTime(row.kind, row.dateNext, row.interval);
                           if next.Some? then next.value else row.dateNext)
    ensures r.(dateEnd := row.dateEnd, dateNext := row.dateNext, status := row.status) == row
  {
    var next := PastNextTime(row.kind, row.dateNext, row.interval);
    row.(dateEnd := At(now), dateNext := if next.Some? then next.value else row.dateNext, status := Some(status))
  }

  /** The store after `update({code}, {isActive: false})`: no row, no change. */
  function Deactivated(store: map<string, TaskRecord>, code: string): (s: map<string, TaskRecord>)
    ensures s.Keys == store.Keys
    ensures code in s ==> !s[code].isActive && s[code].(isActive := store[code].isActive) == store[code]
    ensures forall c :: c in store && c != code ==> s[c] == store[c]
  {
    if code in store then store[code := store[code].(isActive := false)] else store
  }

  /**
   * The store after a terminal outcome of a job for code: the result is
   * saved, and a ONCE task (by the kind the job was created with) is
   * deactivated. Without a row the save throws and nothing is written.
   */
  function AfterOutcome(store: map<string, TaskRecord>, code: string, kind: CronKind, status: bool,
                        now: int): (s: map<string, TaskRecord>)
    ensures code !in store ==> s == store
    ensures code in store ==> code in s && s[code].status == Some(status) && s[code].dateEnd == At(now)
    ensures code in store ==> (s[code].isActive <==> store[code].isActive && kind != Once)
    ensures forall c :: c in store && c != code ==> c in s && s[c] == store[c]
  {
    if code !in store then store
    else
      var saved := store[code := SavedResult(store[code], status, now)];
      if kind == Once then Deactivated(saved, code) else saved
  }

  class SchedulerService {
    var registry: map<string, ScheduledJob>
    var store: map<string, TaskRecord>
    var jobs: map<nat, KueJob>
    var nextJobId: nat
    const cronTypes: map<int, CronKind>
    const priorities: map<int, int>
    const env: string
    const ttlSaveCompleteTask: int
    const ttlSaveErrorTask: int
    const parseDate: string -> Instant
    const formatDate: string -> string

    /** Every queued job has an id below the next one handed out. */
    ghost predicate Valid()
      reads this`jobs, this`nextJobId
    {
      forall id :: id in jobs ==> id < nextJobId
    }

    constructor(rows: map<string, TaskRecord>, cronTypes: map<int, CronKind>, priorities: map<int, int>,
                nodeEnv: Option<string>, ttlSaveCompleteTask: int, ttlSaveErrorTask: int,
                parseDate: string -> Instant, formatDate: string -> string)
      ensures Valid()
      ensures registry == map[] && store == rows && jobs == map[] && nextJobId == 0
      ensures this.cronTypes == cronTypes && this.priorities == priorities && env == EnvName(nodeEnv)
      ensures this.ttlSaveCompleteTask == ttlSaveCompleteTask && this.ttlSaveErrorTask == ttlSaveErrorTask
      ensures this.parseDate == parseDate && this.formatDate == formatDate
    {
      registry, store, jobs, nextJobId := map[], rows, map[], 0;
      this.cronTypes, this.priorities, env := cronTypes, priorities, EnvName(nodeEnv);
      this.ttlSaveCompleteTask, this.ttlSaveErrorTask := ttlSaveCompleteTask, ttlSaveErrorTask;
      this.parseDate, this.formatDate := parseDate, formatDate;
    }

    /**
     * cancelTask: cancels whichever of `code` and `code-interval` are armed
     * and, unless only the trigger is to be cancelled, deactivates the row.
     */
    method CancelTask(code: string, isOnlyCancelCron: bool)
      modifies this`registry, this`store
      ensures registry == old(registry) - {code, IntervalName(code)}
      ensures store == if isOnlyCancelCron then old(store) else Deactivated(old(store), code)
    {
      if code in registry {
        registry := registry - {code};
      }
      if IntervalName(code) in registry {
        registry := registry - {IntervalName(code)};
      }
      if !isOnlyCancelCron {
        store := Deactivated(store, code);
      }
    }

    /**
     * createTaskToTask: arms the task's code with its cron value; when that
     * fires it arms `code-interval` with the job function.
     */
    method CreateTaskToTask(task: TaskSnapshot, cronValue: string, opts: QueueOptions)
      modifies this`registry
      ensures registry == old(registry)[task.code := PrimaryJob(task, cronValue, true, opts)]
    {
      var cronIntervalValue := IntervalCronOf(task.interval, "null");
      registry := registry[task.code := ScheduledJob(cronValue, ArmInterval(IntervalName(task.code), cronIntervalValue, task, opts))];
    }

    /**
     * createTask: an upsert that first cancels the task's triggers, then
     * looks up the catalogs, computes the cron values, updates the existing
     * row and arms it. Any failure is reported as a creation error and
     * leaves the triggers cancelled and the rows untouched.
     */
    method CreateTask(taskName: string, input: TaskInput, opts: QueueOptions, now: int)
      returns (res: Outcome<SchedulerError>)
      modifies this`registry, this`store
      ensures var e := CreationError(cronTypes, priorities, old(store), taskName, input, formatDate);
        && (res.Fail? <==> e.Some?)
        && (res.Fail? ==> res.error == TaskCreationFailed(e.value)
                          && registry == old(registry) - {taskName, IntervalName(taskName)}
                          && store == old(store))
      ensures res.Pass? ==>
        var kind := cronTypes[input.cronTypeId];
        var values := CronValue(kind, input.time, input.interval, formatDate).value;
        var next := InitNextValue(kind, input.time, input.interval, now, parseDate).value;
        var row := CreatedRecord(old(store)[taskName], kind, priorities[input.priorityId], values.cron, next, input);
        && store == old(store)[taskName := row]
        && registry == (old(registry) - {taskName, IntervalName(taskName)})[taskName :=
             PrimaryJob(TaskSnapshot(taskName, kind, row.priority, row.interval), values.cron,
                        values.cronInterval.Some?, opts)]
    {
      CancelTask(taskName, true);
      if input.cronTypeId !in cronTypes {
        return Fail(TaskCreationFailed(CronTypeNotFound));
      }
      if input.priorityId !in priorities {
        return Fail(TaskCreationFailed(PriorityNotFound));
      }
      var kind := cronTypes[input.cronTypeId];
      var priority := priorities[input.priorityId];
      var values := CronValue(kind, input.time, input.interval, formatDate);
      if values.None? {
        return Fail(TaskCreationFailed(NoCronValue));
      }
      if taskName !in store {
        return Fail(TaskCreationFailed(NoTaskRecord));
      }
      var next := InitNextValue(kind, input.time, input.interval, now, parseDate);
      var row := CreatedRecord(store[taskName], kind, priority, values.value.cron, next.value, input);
      store := store[taskName := row];
      var task := TaskSnapshot(taskName, kind, priority, row.interval);
      if values.value.cronInterval.Some? {
        CreateTaskToTask(task, values.value.cron, opts);
      } else {
        registry := registry[taskName := ScheduledJob(values.value.cron, RunQueue(task, opts))];
      }
      res := Pass;
    }

    /**
     * start: re-arms a task from its row if it is active, through the
     * two-stage path for INTERVAL_WITH_START_DATE; a missing row throws.
     */
    method Start(taskName: string, opts: QueueOptions) returns (res: Outcome<SchedulerError>)
      modifies this`registry
      ensures taskName !in store ==> res == Fail(NoTaskRecord) && registry == old(registry)
      ensures taskName in store ==>
        var row := store[taskName];
        && res == Pass
        && registry == if row.isActive
             then old(registry)[taskName := PrimaryJob(TaskSnapshot(taskName, row.kind, row.priority, row.interval),
                                                       row.cronValue, row.kind == IntervalWithStartDate, opts)]
             else old(registry)
    {
      if taskName !in store {
        return Fail(NoTaskRecord);
      }
      var row := store[taskName];
      if row.isActive {
        var task := TaskSnapshot(taskName, row.kind, row.priority, row.interval);
        if row.kind == IntervalWithStartDate {
          CreateTaskToTask(task, row.cronValue, opts);
        } else {
          registry := registry[taskName := ScheduledJob(row.cronValue, RunQueue(task, opts))];
        }
      }
      res := Pass;
    }

    /** createQueue: puts a job for the task on the queue `ENV:code`. */
    method CreateQueue(task: TaskSnapshot, opts: QueueOptions, now: int) returns (id: nat)
      requires Valid()
      modifies this`jobs, this`nextJobId
      ensures Valid()
      ensures id == old(nextJobId) && id !in old(jobs) && nextJobId == id + 1
      ensures jobs == old(jobs)[id := NewJob(env, task, opts, now)]
    {
      id := nextJobId;
      jobs := jobs[id := NewJob(env, task, opts, now)];
      nextJobId := nextJobId + 1;
    }

    /**
     * A timer fires: a job function creates a queue job; the primary timer
     * of a two-stage task only arms the repeating timer and runs nothing.
     * A name that is not armed does nothing.
     */
    method Fire(name: string, now: int)
      requires Valid()
      modifies this`registry, this`jobs, this`nextJobId
      ensures Valid()
      ensures name !in old(registry) ==> registry == old(registry) && jobs == old(jobs) && nextJobId == old(nextJobId)
      ensures name in old(registry) && old(registry)[name].action.ArmInterval? ==>
        var a := old(registry)[name].action;
        && registry == old(registry)[a.name := ScheduledJob(a.rule, RunQueue(a.task, a.opts))]
        && jobs == old(jobs) && nextJobId == old(nextJobId)
      ensures name in old(registry) && old(registry)[name].action.RunQueue? ==>
        var a := old(registry)[name].action;
        && registry == old(registry)
        && old(nextJobId) !in old(jobs)
        && jobs == old(jobs)[old(nextJobId) := NewJob(env, a.task, a.opts, now)]
        && nextJobId == old(nextJobId) + 1
    {
      if name in registry {
        match registry[name].action
        case RunQueue(task, opts) =>
          var _ := CreateQueue(task, opts, now);
        case ArmInterval(intervalName, rule, task, opts) =>
          registry := registry[intervalName := ScheduledJob(rule, RunQueue(task, opts))];
      }
    }

    /** saveJobResult: writes dateEnd, the advanced dateNext and status; a missing row throws. */
    method SaveJobResult(code: string, status: bool, now: int) returns (res: Outcome<SchedulerError>)
      modifies this`store
      ensures code !in old(store) ==> res == Fail(NoTaskRecord) && store == old(store)
      ensures code in old(store) ==> res == Pass && store == old(store)[code := SavedResult(old(store)[code], status, now)]
    {
      if code !in store {
        return Fail(NoTaskRecord);
      }
      store := store[code := SavedResult(store[code], status, now)];
      res := Pass;
    }

    /** disableTask: deactivates the row, if there is one. */
    method DisableTask(code: string)
      modifies this`store
      ensures store == Deactivated(old(store), code)
    {
      store := Deactivated(store, code);
    }

    /**
     * clearJobs: takes the jobs in the given state that the filter
     * selects and removes them one by one.
     */
    method ClearJobs(state: JobState, ttl: int, now: int)
      modifies this`jobs
      ensures jobs == old(jobs) - SweptIds(old(jobs), state, env, ttl, now)
    {
      var filtered := SweptIds(jobs, state, env, ttl, now);
      var remaining := filtered;
      while remaining != {}
        invariant remaining <= filtered
        invariant jobs == old(jobs) - (filtered - remaining)
        decreases remaining
      {
        var id :| id in remaining;
        jobs := jobs - {id};
        remaining := remaining - {id};
      }
    }

    /**
     * The handlers createQueue registers: on `complete` and `failed` the
     * job's state is terminal, old jobs of that state are swept, the result
     * is saved and a ONCE task is deactivated; `failed attempt` changes nothing.
     */
    method OnJobEvent(id: nat, event: JobEvent, now: int) returns (res: Outcome<SchedulerError>)
      requires Valid() && id in jobs
      modifies this`jobs, this`store
      ensures Valid()
      ensures event.FailedAttempt? ==> res == Pass && jobs == old(jobs) && store == old(store)
      ensures !event.FailedAttempt? ==>
        var job := old(jobs)[id];
        var state := if event.Completed? then Complete else Failed;
        var ttl := if event.Completed? then ttlSaveCompleteTask else ttlSaveErrorTask;
        var marked := old(jobs)[id := job.(state := state)];
        && jobs == marked - SweptIds(marked, state, env, ttl, now)
        && store == AfterOutcome(old(store), job.code, job.kind, event.Completed?, now)
        && (res.Fail? <==> job.code !in old(store))
    {
      if event.FailedAttempt? {
        return Pass;
      }
      var job := jobs[id];
      var completed := event.Completed?;
      var state := if completed then Complete else Failed;
      jobs := jobs[id := job.(state := state)];
      ClearJobs(state, if completed then ttlSaveCompleteTask else ttlSaveErrorTask, now);
      res := SaveJobResult(job.code, completed, now);
      if res.Pass? && job.kind == Once {
        DisableTask(job.code);
      }
    }
  }

  /** Two-stage arming: the start-date trigger queues nothing, the repeating one does. */
  method TwoStageScenario(parseDate: string -> Instant, formatDate: string -> string)
  {
    var row := TaskRecord(false, NoDate, NoDate, None, "", None, None, Interval, 0);
    var s := new SchedulerService(map["report" := row], map[1 := IntervalWithStartDate], map[2 := 5],
                                  None, 1000, 1000, parseDate, formatDate);
    var r := s.CreateTask("report", TaskInput("2030-01-01T00:00", 1, 2, None, None),
                          QueueOptions(None, None, None), 0);
    assert CreationError(map[1 := IntervalWithStartDate], map[2 := 5], map["report" := row], "report",
                         TaskInput("2030-01-01T00:00", 1, 2, None, None), formatDate).None?;
    assert r.Pass?;
    assert "report" in s.registry && s.registry["report"].action.ArmInterval?;
    assert s.registry["report"].action.name == IntervalName("report");
    assert s.jobs == map[];
    assert s.Valid();
    s.Fire("report", 10);
    assert s.jobs == map[];
    assert IntervalName("report") in s.registry && s.registry[IntervalName("report")].action.RunQueue?;
    assert s.Valid();
    s.Fire(IntervalName("report"), 20);
    assert 0 in s.jobs;
    assert s.jobs[0].code == "report" && s.jobs[0].createdAt == 20;
  }

  /** A ONCE task is deactivated by its outcome; an unknown cron type arms nothing and stop still succeeds. */
  method OnceScenario(parseDate: string -> Instant, formatDate: string -> string)
  {
    var row := TaskRecord(false, NoDate, NoDate, None, "", None, None, Interval, 0);
    var s := new SchedulerService(map["mail" := row], map[1 := Once], map[2 := 5],
                                  Some("prod"), 1000, 1000, parseDate, formatDate);
    var bad := s.CreateTask("mail", TaskInput("2030-01-01T00:00", 7, 2, None, None),
                            QueueOptions(None, None, None), 0);
    assert bad == Fail(TaskCreationFailed(CronTypeNotFound));
    assert s.registry == map[];
    s.CancelTask("mail", false);
    var ok := s.CreateTask("mail", TaskInput("2030-01-01T00:00", 1, 2, None, None),
                           QueueOptions(None, None, None), 0);
    assert ok.Pass? && s.store["mail"].isActive;
    s.Fire("mail", 5);
    assert 0 in s.jobs;
    var done := s.OnJobEvent(0, Completed, 6);
    assert done.Pass?;
    assert !s.store["mail"].isActive && s.store["mail"].status == Some(true);
  }
}
