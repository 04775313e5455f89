/**
  The scheduler's shared object and one pass of its tick loop, in place
  (libui/src/periodic_tasks_scheduler.cc), and what a tick does to every task.
*/
module SchedulerContexts {
  import opened Orders
  import opened Scheduling

  class SchedulerContext {
    var tasks: map<string, Tasks>
    var cursors: map<string, Cursor>
    var shutdownTriggered: bool

    function Value(): Context
      reads this
    {
      Context(tasks, cursors, shutdownTriggered)
    }

    constructor ()
      ensures Value() == Context(map[], map[], false)
    {
      tasks, cursors, shutdownTriggered := map[], map[], false;
    }

    method AddHost(host: string)
      modifies this
      ensures Value() == WithHost(old(Value()), host)
      ensures tasks.Keys == old(tasks).Keys + {host} && cursors.Keys == old(cursors).Keys + {host}
      ensures host !in old(tasks) ==> forall k: Kind :: tasks[host][k] == Task(false, Never)
      ensures host !in old(cursors) ==> cursors[host] == Cursor(0, 0)
      ensures forall h <- old(tasks) :: tasks[h] == old(tasks)[h]
      ensures forall h <- old(cursors) :: cursors[h] == old(cursors)[h]
      ensures shutdownTriggered == old(shutdownTriggered)
    {
      if host !in tasks { tasks := tasks[host := FRESH_TASKS]; }
      if host !in cursors { cursors := cursors[host := Cursor(0, 0)]; }
    }

    method RemoveHost(host: string)
      modifies this
      ensures Value() == WithoutHost(old(Value()), host)
      ensures Value() == Context(old(tasks) - {host}, old(cursors) - {host}, old(shutdownTriggered))
    {
      tasks := tasks - {host};
      cursors := cursors - {host};
    }

    /** `ok` is false when `tasks_.at` throws; nothing has changed then. */
    method RescheduleNow(host: string, kind: Kind) returns (ok: bool)
      modifies this
      ensures ok == Rescheduled(old(Value()), host, kind).Some?
      ensures Value() == if ok then Rescheduled(old(Value()), host, kind).value else old(Value())
      ensures ok <==> host in old(tasks)
      ensures ok ==> tasks == old(tasks)[host := old(tasks)[host][kind := Task(old(tasks)[host][kind].pending, Never)]]
      ensures cursors == old(cursors) && shutdownTriggered == old(shutdownTriggered)
    {
      ok := host in tasks;
      if ok {
        tasks := tasks[host := tasks[host][kind := Task(tasks[host][kind].pending, Never)]];
      }
    }

    method TriggerShutdown()
      modifies this
      ensures Value() == Context(old(tasks), old(cursors), true)
    {
      shutdownTriggered := true;
    }

    /** `ok` is false when a lookup throws; nothing has changed then, as the two maps have the same keys. */
    method HandlePostExecution(host: string, job: Job, now: int) returns (ok: bool)
      requires job.Periodic?
      requires tasks.Keys == cursors.Keys
      modifies this
      ensures ok == PostExecuted(old(Value()), host, job, now).Some?
      ensures Value() == if ok then PostExecuted(old(Value()), host, job, now).value else old(Value())
      ensures ok <==> shutdownTriggered || host in old(tasks)
      ensures tasks == if shutdownTriggered || !ok then old(tasks)
                       else old(tasks)[host := old(tasks)[host][job.kind := Task(false, At(now))]]
      ensures !shutdownTriggered && ok && job.kind == GET_MESSAGES && job.payload.Seqno? ==>
                cursors == old(cursors)[host := old(cursors)[host].(messages := job.payload.seqno)]
      ensures !shutdownTriggered && ok && job.kind == GET_NOTICES && job.payload.Seqno? ==>
                cursors == old(cursors)[host := old(cursors)[host].(notices := job.payload.seqno)]
      ensures shutdownTriggered || !ok || job.kind !in {GET_MESSAGES, GET_NOTICES} ==> cursors == old(cursors)
      ensures shutdownTriggered == old(shutdownTriggered)
    {
      ok := true;
      if shutdownTriggered {
        return;
      }
      if host !in tasks {
        ok := false;
        return;
      }
      tasks := tasks[host := tasks[host][job.kind := Task(false, At(now))]];
      if job.payload.Seqno? {
        if job.kind == GET_MESSAGES {
          cursors := cursors[host := Cursor(job.payload.seqno, cursors[host].notices)];
        } else if job.kind == GET_NOTICES {
          cursors := cursors[host := Cursor(cursors[host].messages, job.payload.seqno)];
        }
      }
      assert cursors == old(cursors)[host := Stored(old(cursors)[host], job)];
    }

    /**
      The nested loops of one tick. The iteration order of the task map comes in as `hosts`, and the
      calls of the scheduler callback go out as `emitted`.
    */
    method Tick(config: map<string, HostSettings>, hosts: seq<string>, intervals: Intervals, now: int)
      returns (emitted: seq<Scheduled>)
      requires IsOrderOf(hosts, tasks.Keys)
      requires tasks.Keys == cursors.Keys <= config.Keys
      modifies this
      ensures emitted == TickJobs(old(Value()), config, hosts, intervals, now)
      ensures tasks.Keys == old(tasks).Keys && cursors == old(cursors) && shutdownTriggered == old(shutdownTriggered)
      ensures forall h <- tasks.Keys ::
        tasks[h] == if shutdownTriggered then old(tasks)[h] else TickedTasks(old(tasks)[h], config[h], intervals, now)
    {
      hide Due, DueJobs;
      emitted := [];
      if !shutdownTriggered {
        for i := 0 to |hosts|
          invariant !shutdownTriggered && tasks.Keys == old(tasks).Keys && cursors == old(cursors)
          invariant emitted == TickJobs(old(Value()), config, hosts[..i], intervals, now)
          invariant forall j :: 0 <= j < i ==>
            tasks[hosts[j]] == TickedTasks(old(tasks)[hosts[j]], config[hosts[j]], intervals, now)
          invariant forall j :: i <= j < |hosts| ==> tasks[hosts[j]] == old(tasks)[hosts[j]]
        {
          var jobs := TickHost(hosts[i], config[hosts[i]], intervals, now);
          assert hosts[..i + 1][..i] == hosts[..i];
          emitted := emitted + jobs;
        }
        assert hosts[..|hosts|] == hosts;
      }
    }

    /** The inner loop of a tick: the nine tasks of one host. */
    method TickHost(host: string, settings: HostSettings, intervals: Intervals, now: int)
      returns (jobs: seq<Scheduled>)
      requires host in tasks && host in cursors
      modifies `tasks
      ensures tasks.Keys == old(tasks).Keys
      ensures tasks == old(tasks)[host := TickedTasks(old(tasks)[host], settings, intervals, now)]
      ensures jobs == DueJobs(host, old(tasks)[host], cursors[host], settings, intervals, now, KIND_COUNT)
    {
      jobs := [];
      ghost var ts := tasks[host];
      if settings.schedulePeriodicTasks {
        for k := 0 to KIND_COUNT
          invariant tasks.Keys == old(tasks).Keys
          invariant tasks == old(tasks)[host := tasks[host]]
          invariant forall i :: 0 <= i < k ==> tasks[host][i] == TickedTasks(ts, settings, intervals, now)[i]
          invariant forall i :: k <= i < KIND_COUNT ==> tasks[host][i] == ts[i]
          invariant jobs == DueJobs(host, ts, cursors[host], settings, intervals, now, k)
        {
          if Due(tasks[host][k], intervals[k], now) {
            var job := Schedule(host, k, settings.activeOnlyTasks);
            jobs := jobs + [Scheduled(host, k, job)];
          }
        }
      }
      assert tasks[host] == TickedTasks(ts, settings, intervals, now);
    }

    /** `schedule_`: marks the task pending and captures the payload now. */
    method Schedule(host: string, kind: Kind, activeOnly: bool) returns (job: Job)
      requires host in tasks && host in cursors
      modifies `tasks
      ensures tasks == old(tasks)[host := old(tasks)[host][kind := Pending(old(tasks)[host][kind])]]
      ensures job == JobFor(kind, cursors[host], activeOnly)
      ensures job.Periodic? && job.kind == kind
      ensures kind == GET_MESSAGES ==> job.payload == Seqno(cursors[host].messages)
      ensures kind == GET_NOTICES ==> job.payload == Seqno(cursors[host].notices)
      ensures kind == GET_TASKS ==> job.payload == ActiveOnly(activeOnly)
      ensures kind !in {GET_MESSAGES, GET_NOTICES, GET_TASKS} ==> job.payload == NoPayload
      ensures tasks[host][kind] == Task(true, old(tasks)[host][kind].lastExecution)
    {
      tasks := tasks[host := tasks[host][kind := Task(true, tasks[host][kind].lastExecution)]];
      var payload := NoPayload;
      if kind == GET_MESSAGES {
        payload := Seqno(cursors[host].messages);
      } else if kind == GET_NOTICES {
        payload := Seqno(cursors[host].notices);
      } else if kind == GET_TASKS {
        payload := ActiveOnly(activeOnly);
      }
      job := Periodic(kind, payload);
    }
  }
}
