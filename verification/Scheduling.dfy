/**
  The shared state of the periodic scheduler and its transitions
  (libui/src/periodic_tasks_scheduler.cc and .h).

  The transitions are functions on `Context` values; the class `SchedulerContext` is the object whose
  methods carry them out in place under its mutex, one critical section per method.
*/
module Scheduling {
  import opened Wrappers

  /** The position of a periodic task in `PeriodicTask` and in the task arrays (libui/include/woinc/ui/defs.h). */
  type Kind = k: int | 0 <= k < 9

  const KIND_COUNT := 9
  const GET_CC_STATUS: Kind := 0
  const GET_CLIENT_STATE: Kind := 1
  const GET_DISK_USAGE: Kind := 2
  const GET_FILE_TRANSFERS: Kind := 3
  const GET_MESSAGES: Kind := 4
  const GET_NOTICES: Kind := 5
  const GET_PROJECT_STATUS: Kind := 6
  const GET_STATISTICS: Kind := 7
  const GET_TASKS: Kind := 8

  /** `Never` is `time_point::min()`; times and intervals are in milliseconds. */
  datatype Instant = Never | At(time: int)

  datatype Task = Task(pending: bool, lastExecution: Instant)

  datatype Cursor = Cursor(messages: int, notices: int)

  datatype Payload = NoPayload | Seqno(seqno: int) | ActiveOnly(activeOnly: bool)

  datatype Job =
    | Periodic(kind: Kind, payload: Payload)
    | Operation(id: nat)   // an AsyncJob, pushed at the front
    | Authorization        // an AuthorizationJob, pushed at the back

  type Tasks = ts: seq<Task> | |ts| == KIND_COUNT witness FRESH

  type Intervals = ds: seq<int> | |ds| == KIND_COUNT witness DEFAULT_INTERVALS

  datatype Context = Context(tasks: map<string, Tasks>, cursors: map<string, Cursor>, shutdown: bool)

  const FRESH: seq<Task> := [IDLE, IDLE, IDLE, IDLE, IDLE, IDLE, IDLE, IDLE, IDLE]
  const IDLE := Task(false, Never)
  const FRESH_TASKS: Tasks := FRESH

  /** One second for the quick tasks, a minute for disk usage, notices and statistics, an hour for the client state. */
  const DEFAULT_INTERVALS: seq<int> := [1000, 3600000, 60000, 1000, 1000, 60000, 1000, 60000, 1000]

  // ----- transitions -----

  /** `emplace` keeps an entry that is already there. */
  function WithHost(c: Context, host: string): Context {
    Context(if host in c.tasks then c.tasks else c.tasks[host := FRESH_TASKS],
            if host in c.cursors then c.cursors else c.cursors[host := Cursor(0, 0)],
            c.shutdown)
  }

  function WithoutHost(c: Context, host: string): Context {
    Context(c.tasks - {host}, c.cursors - {host}, c.shutdown)
  }

  function WithTask(c: Context, host: string, kind: Kind, task: Task): Context {
    if host !in c.tasks then c
    else Context(c.tasks[host := c.tasks[host][kind := task]], c.cursors, c.shutdown)
  }

  /** `None` is the `out_of_range` exception of `tasks_.at`. */
  function Rescheduled(c: Context, host: string, kind: Kind): Option<Context> {
    if host !in c.tasks then None
    else Some(WithTask(c, host, kind, Task(c.tasks[host][kind].pending, Never)))
  }

  function Stored(cursor: Cursor, job: Job): Cursor
    requires job.Periodic?
  {
    if !job.payload.Seqno? then cursor
    else if job.kind == GET_MESSAGES then Cursor(job.payload.seqno, cursor.notices)
    else if job.kind == GET_NOTICES then Cursor(cursor.messages, job.payload.seqno)
    else cursor
  }

  /** `host` is what the job's client reports; `None` is the exception of `tasks_.at` or `states_.at`. */
  function PostExecuted(c: Context, host: string, job: Job, now: int): Option<Context>
    requires job.Periodic?
  {
    if c.shutdown then Some(c)
    else if host !in c.tasks || host !in c.cursors then None
    else
      var c1 := WithTask(c, host, job.kind, Task(false, At(now)));
      Some(Context(c1.tasks, c.cursors[host := Stored(c.cursors[host], job)], c.shutdown))
  }

  predicate Due(task: Task, interval: int, now: int) {
    !task.pending && (task.lastExecution.Never? || now >= task.lastExecution.time + interval)
  }

  function JobFor(kind: Kind, cursor: Cursor, activeOnly: bool): Job {
    Periodic(kind,
             if kind == GET_MESSAGES then Seqno(cursor.messages)
             else if kind == GET_NOTICES then Seqno(cursor.notices)
             else if kind == GET_TASKS then ActiveOnly(activeOnly)
             else NoPayload)
  }

  function Pending(task: Task): Task {
    Task(true, task.lastExecution)
  }

  function WithPending(c: Context, host: string, kind: Kind): Context {
    if host !in c.tasks then c
    else WithTask(c, host, kind, Pending(c.tasks[host][kind]))
  }

  // ----- one tick, as a specification -----

  datatype HostSettings = HostSettings(schedulePeriodicTasks: bool, activeOnlyTasks: bool)

  datatype Scheduled = Scheduled(host: string, kind: Kind, job: Job)

  /** What a tick schedules for one host at the first `upto` array positions. */
  function DueJobs(host: string, ts: Tasks, cursor: Cursor, settings: HostSettings,
                   intervals: Intervals, now: int, upto: nat): seq<Scheduled>
    requires upto <= KIND_COUNT
  {
    if upto == 0 || !settings.schedulePeriodicTasks then []
    else
      DueJobs(host, ts, cursor, settings, intervals, now, upto - 1)
      + (if Due(ts[upto - 1], intervals[upto - 1], now)
         then [Scheduled(host, upto - 1, JobFor(upto - 1, cursor, settings.activeOnlyTasks))] else [])
  }

  /** What a tick schedules when it visits `hosts` in this order. */
  function TickJobs(c: Context, config: map<string, HostSettings>, hosts: seq<string>,
                    intervals: Intervals, now: int): seq<Scheduled>
    requires forall h <- hosts :: h in c.tasks && h in c.cursors && h in config
  {
    if c.shutdown || hosts == [] then []
    else
      TickJobs(c, config, hosts[..|hosts| - 1], intervals, now)
      + (var h := hosts[|hosts| - 1]; DueJobs(h, c.tasks[h], c.cursors[h], config[h], intervals, now, KIND_COUNT))
  }

  /** The task states after a tick: exactly the due tasks of the hosts that are to be scheduled have become pending. */
  function TickedTasks(ts: Tasks, settings: HostSettings, intervals: Intervals, now: int): Tasks {
    seq(KIND_COUNT, k requires 0 <= k < KIND_COUNT =>
      if settings.schedulePeriodicTasks && Due(ts[k], intervals[k], now) then Pending(ts[k]) else ts[k])
  }
}
