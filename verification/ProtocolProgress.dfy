/**
  What the steps bring about, in the plain terms of the settings, times and numbers: when a task is due,
  what its job carries, what a call hands over and a report stores, and that no worker gets stuck.
*/
module ProtocolProgress {
  import opened JobQueues
  import opened Scheduling
  import opened Protocol
  import opened ProtocolKeys
  import opened ProtocolJobs
  import opened ProtocolRuns
  import opened ProtocolTheorems

  // ----- when a task is scheduled -----

  /** Idle, and it never ran or its interval is over. */
  predicate IntervalOver(task: Task, interval: int, now: int) {
    if task.pending then false
    else
      match task.lastExecution
      case Never => true
      case At(time) => now - time >= interval
  }

  /** A tick can schedule a task of a host exactly then. */
  lemma ScheduledIff(s: System, host: string, kind: Kind, now: int)
    requires KeyChain(s)
    ensures Enabled(s, Schedule(host, kind, now))
       <==> && !s.failed && !s.stopping && now <= s.clock
            && host in s.context.tasks && host in s.config && s.config[host].schedulePeriodicTasks
            && IntervalOver(s.context.tasks[host][kind], s.cached[kind], now)
  {
  }

  /** The task is idle, and has not run after the given time; `Never` leaves only a task that is due at once. */
  predicate IdleSince(s: System, host: string, kind: Kind, since: Instant) {
    host in s.context.tasks ==>
      var task := s.context.tasks[host][kind];
      !task.pending && (task.lastExecution.Never? || (since.At? && task.lastExecution.time <= since.time))
  }

  /** The step schedules the task, or reports a job of it. */
  predicate Touches(s: System, step: Step, host: string, kind: Kind) {
    || (step.Schedule? && step.host == host && step.kind == kind)
    || (step.PostExecute? && step.host in s.hosts && s.hosts[step.host].url == host
        && s.hosts[step.host].worker.Ran? && IsKind(s.hosts[step.host].worker.job, kind))
  }

  predicate Untouched(s: System, steps: seq<Step>, host: string, kind: Kind)
    requires IsRun(s, steps)
    decreases |steps|
  {
    steps == []
    || (!Touches(s, steps[0], host, kind) && Untouched(Apply(s, steps[0]), steps[1..], host, kind))
  }

  /** The steps that leave the scheduler's tasks alone. */
  predicate KeepsTasks(step: Step) {
    && !step.AddTasks? && !step.RemoveTasks? && !step.Schedule? && !step.Reschedule? && !step.SetActiveOnly?
    && !step.PostExecute?
  }

  lemma OtherStepsKeepTasks(s: System, step: Step)
    requires Enabled(s, step) && KeepsTasks(step)
    ensures Apply(s, step).context.tasks == s.context.tasks
  {
    hide Executed, Push, Popped, AfterPop;
  }

  lemma MembershipIdleSince(s: System, step: Step, host: string, kind: Kind, since: Instant)
    requires Enabled(s, step) && IdleSince(s, host, kind, since) && (step.AddTasks? || step.RemoveTasks?)
    ensures IdleSince(Apply(s, step), host, kind, since)
  {
    assert FRESH_TASKS[kind] == Task(false, Never) by { FreshIsIdle(kind); }
    hide FRESH_TASKS;
  }

  lemma FreshIsIdle(kind: Kind)
    ensures FRESH_TASKS[kind] == Task(false, Never)
  {
  }

  lemma ScheduleIdleSince(s: System, step: Step, host: string, kind: Kind, since: Instant)
    requires KeyChain(s) && Enabled(s, step) && IdleSince(s, host, kind, since)
    requires step.Schedule? && !(step.host == host && step.kind == kind)
    ensures IdleSince(Apply(s, step), host, kind, since)
  {
    ScheduledState(s, step.host, step.kind);
    hide KeyChain, ScheduledStep, Push, JobFor;
  }

  lemma RescheduleIdleSince(s: System, step: Step, host: string, kind: Kind, since: Instant)
    requires Enabled(s, step) && IdleSince(s, host, kind, since) && (step.Reschedule? || step.SetActiveOnly?)
    ensures IdleSince(Apply(s, step), host, kind, since)
  {
  }

  lemma ReportIdleSince(s: System, step: Step, host: string, kind: Kind, since: Instant)
    requires Enabled(s, step) && IdleSince(s, host, kind, since)
    requires step.PostExecute? && !Touches(s, step, host, kind)
    ensures IdleSince(Apply(s, step), host, kind, since)
  {
    hide Stored;
  }

  lemma StepIdleSince(s: System, step: Step, host: string, kind: Kind, since: Instant)
    requires KeyChain(s) && Enabled(s, step) && IdleSince(s, host, kind, since) && !Touches(s, step, host, kind)
    ensures IdleSince(Apply(s, step), host, kind, since)
  {
    if KeepsTasks(step) {
      OtherStepsKeepTasks(s, step);
      hide Enabled, Apply, KeyChain;
    } else {
      hide Enabled, Apply, KeyChain, IdleSince;
      if step.Schedule? {
        ScheduleIdleSince(s, step, host, kind, since);
      } else if step.PostExecute? {
        ReportIdleSince(s, step, host, kind, since);
      } else if step.AddTasks? || step.RemoveTasks? {
        MembershipIdleSince(s, step, host, kind, since);
      } else {
        RescheduleIdleSince(s, step, host, kind, since);
      }
    }
  }

  lemma {:induction false} RunIdleSince(s: System, steps: seq<Step>, host: string, kind: Kind, since: Instant)
    requires KeyChain(s) && IsRun(s, steps) && IdleSince(s, host, kind, since) && Untouched(s, steps, host, kind)
    ensures IdleSince(After(s, steps), host, kind, since)
    decreases |steps|
  {
    hide KeyChain, Enabled, Apply, IdleSince, Touches;
    if steps != [] {
      StepKeys(s, steps[0]);
      StepIdleSince(s, steps[0], host, kind, since);
      RunIdleSince(Apply(s, steps[0]), steps[1..], host, kind, since);
    }
  }

  /** A tick at this time finds the host known, to be scheduled, and the system running. */
  predicate CanSchedule(s: System, host: string, now: int) {
    && !s.failed && !s.stopping && now <= s.clock
    && host in s.context.tasks && host in s.config && s.config[host].schedulePeriodicTasks
  }

  /**
    The converse of `Spacing`: when a job of a task has been reported and the task has been neither
    scheduled nor reported since, a tick at the completion time plus the cached interval, or later, can
    schedule it again.
  */
  lemma DueAgain(a: seq<Step>, worker: string, b: seq<Step>, host: string, kind: Kind, now: int)
    requires IsRun(START, a) && Completes(After(START, a), worker, host, kind)
    requires var reported := Apply(After(START, a), PostExecute(worker));
             && IsRun(reported, b) && Untouched(reported, b, host, kind)
             && CanSchedule(After(reported, b), host, now)
             && now >= After(START, a).clock + After(reported, b).cached[kind]
    ensures Enabled(After(Apply(After(START, a), PostExecute(worker)), b), Schedule(host, kind, now))
  {
    RunKeys(START, a);
    var s := After(START, a);
    var reported := Apply(s, PostExecute(worker));
    StepKeys(s, PostExecute(worker));
    RunKeys(reported, b);
    ReportStores(s, worker, host, kind);
    var since := At(s.clock);
    assert IdleSince(reported, host, kind, since);
    RunIdleSince(reported, b, host, kind, since);
    hide IsRun, After, Apply, KeyChain, Completes, Untouched;
    ScheduledIff(After(reported, b), host, kind, now);
  }

  /** What a rescheduling does: the task is due at once, and nothing else changes. */
  lemma RescheduleIs(s: System, host: string, kind: Kind)
    requires KeyChain(s) && Enabled(s, Reschedule(host, kind))
    ensures host in s.context.tasks
    ensures var task := s.context.tasks[host][kind];
            Apply(s, Reschedule(host, kind))
            == s.(context := s.context.(tasks :=
                    s.context.tasks[host := s.context.tasks[host][kind := Task(task.pending, Never)]]))
  {
  }

  /**
    After a rescheduling of an idle task of any kind, any tick finds it due, for as long as it has not been
    scheduled or reported.
  */
  lemma RescheduledIsDue(a: seq<Step>, b: seq<Step>, host: string, kind: Kind, now: int)
    requires IsRun(START, a) && Enabled(After(START, a), Reschedule(host, kind))
    requires host in After(START, a).context.tasks && !After(START, a).context.tasks[host][kind].pending
    requires var rescheduled := Apply(After(START, a), Reschedule(host, kind));
             && IsRun(rescheduled, b) && Untouched(rescheduled, b, host, kind)
             && CanSchedule(After(rescheduled, b), host, now)
    ensures Enabled(After(Apply(After(START, a), Reschedule(host, kind)), b), Schedule(host, kind, now))
  {
    RunKeys(START, a);
    var s := After(START, a);
    var rescheduled := Apply(s, Reschedule(host, kind));
    StepKeys(s, Reschedule(host, kind));
    RunKeys(rescheduled, b);
    RescheduleIs(s, host, kind);
    hide IsRun, After, Apply, KeyChain, Untouched, Enabled;
    assert IdleSince(rescheduled, host, kind, Never);
    RunIdleSince(rescheduled, b, host, kind, Never);
    ScheduledIff(After(rescheduled, b), host, kind, now);
  }

  /** Changing the option of a host stores it and reschedules its task list, and nothing else. */
  lemma SetActiveOnlyIs(s: System, host: string, on: bool)
    requires KeyChain(s) && Enabled(s, SetActiveOnly(host, on))
    ensures host in s.config && host in s.context.tasks
    ensures var task := s.context.tasks[host][GET_TASKS];
            Apply(s, SetActiveOnly(host, on))
            == s.(config := s.config[host := s.config[host].(activeOnlyTasks := on)],
                  context := s.context.(tasks :=
                    s.context.tasks[host := s.context.tasks[host][GET_TASKS := Task(task.pending, Never)]]))
  {
  }

  // ----- what a call hands over and a report stores -----

  /** A call changes the worker's job and what was delivered, for each kind of job and outcome. */
  lemma CallIs(h: Host, job: Job, outcome: Outcome)
    ensures var r := Executed(h, job, outcome);
            && r == h.(worker := r.worker, delivered := r.delivered) && r.worker.Ran?
            && (outcome.RpcFailed? || !job.Periodic? || job.kind !in {GET_MESSAGES, GET_NOTICES} ==>
                  r.worker.job == job && r.delivered == h.delivered)
            && (outcome.Replied? && IsKind(job, GET_MESSAGES) && job.payload.Seqno? ==>
                  var batch := Above(h.log, job.payload.seqno);
                  && r.delivered == h.delivered + batch
                  && r.worker.job == if batch == [] then job
                                     else Periodic(GET_MESSAGES, Seqno(batch[|batch| - 1].seqno)))
            && (outcome.Replied? && IsKind(job, GET_NOTICES) ==>
                  var seqnos := outcome.noticeSeqnos;
                  && r.delivered == h.delivered
                  && r.worker.job == if seqnos == [] then job
                                     else Periodic(GET_NOTICES, Seqno(seqnos[|seqnos| - 1])))
  {
    assert h.delivered + [] == h.delivered;
  }

  /** In every run, a failed call hands over nothing: only the worker of its host goes on, with the same job. */
  lemma FailedCallHandsOverNothing(steps: seq<Step>, host: string)
    requires IsRun(START, steps) && Enabled(After(START, steps), Execute(host, RpcFailed))
    ensures var s := After(START, steps);
            Apply(s, Execute(host, RpcFailed))
            == s.(hosts := s.hosts[host := s.hosts[host].(worker := Ran(s.hosts[host].worker.job))])
  {
    var s := After(START, steps);
    CallIs(s.hosts[host], s.hosts[host].worker.job, RpcFailed);
  }

  /** A report of a known host's job leaves its task idle with this completion time, and stores its number. */
  lemma ReportStores(s: System, worker: string, host: string, kind: Kind)
    requires KeyChain(s) && Completes(s, worker, host, kind)
    ensures var t, payload := Apply(s, PostExecute(worker)), s.hosts[worker].worker.job.payload;
            && t == s.(context := t.context, hosts := s.hosts[worker := s.hosts[worker].(worker := Waiting)])
            && t.context.tasks == s.context.tasks[host := s.context.tasks[host][kind := Task(false, At(s.clock))]]
            && t.context.shutdown == s.context.shutdown
            && var cursor := s.context.cursors[host];
               t.context.cursors == s.context.cursors[host :=
                 if kind == GET_MESSAGES && payload.Seqno? then cursor.(messages := payload.seqno)
                 else if kind == GET_NOTICES && payload.Seqno? then cursor.(notices := payload.seqno)
                 else cursor]
  {
  }

  // ----- what the jobs carry -----

  /**
    In every run a scheduled job carries the settings and numbers of that moment: the last message or
    notice number, or the active-only option of its host.
  */
  lemma ScheduledJobIs(steps: seq<Step>, host: string, kind: Kind, now: int)
    requires IsRun(START, steps) && Enabled(After(START, steps), Schedule(host, kind, now))
    ensures var s, t := After(START, steps), Apply(After(START, steps), Schedule(host, kind, now));
            && host in s.hosts && host in s.config && host in s.context.cursors && host in s.context.tasks
            && var payload :=
                 if kind == GET_MESSAGES then Seqno(s.context.cursors[host].messages)
                 else if kind == GET_NOTICES then Seqno(s.context.cursors[host].notices)
                 else if kind == GET_TASKS then ActiveOnly(s.config[host].activeOnlyTasks)
                 else NoPayload;
               var queue := QueueState(s.hosts[host].queue.jobs + [Periodic(kind, payload)], false);
               var task := Task(true, s.context.tasks[host][kind].lastExecution);
               t == s.(hosts := s.hosts[host := s.hosts[host].(queue := queue)],
                       context := s.context.(tasks :=
                         s.context.tasks[host := s.context.tasks[host][kind := task]]))
  {
    RunKeys(START, steps);
    var s := After(START, steps);
    hide IsRun, After;
    ScheduledState(s, host, kind);
    assert !s.hosts[host].queue.closed;
    hide ScheduledStep, KeyChain;
  }

  // ----- settings -----

  /** The options of a host, for as long as it is configured. */
  predicate OptionIs(s: System, host: string, on: bool) {
    host in s.config ==> s.config[host].activeOnlyTasks == on
  }

  predicate IsSwitchedOff(s: System, host: string) {
    host in s.config ==> !s.config[host].schedulePeriodicTasks
  }

  /** The steps that change the configuration of hosts. */
  predicate Configures(step: Step) {
    step.AddConfiguration? || step.RemoveConfiguration? || step.SetScheduling? || step.SetActiveOnly?
  }

  lemma OthersKeepConfig(s: System, step: Step)
    requires Enabled(s, step) && !Configures(step)
    ensures Apply(s, step).config == s.config
  {
    hide Executed, Push, Popped, AfterPop, WithTask, JobFor;
  }

  lemma StepKeepsOption(s: System, step: Step, host: string, on: bool)
    requires Enabled(s, step) && OptionIs(s, host, on)
    requires !(step.AddConfiguration? && step.host == host) && !(step.SetActiveOnly? && step.host == host)
    ensures OptionIs(Apply(s, step), host, on)
  {
    if !Configures(step) {
      OthersKeepConfig(s, step);
      hide Enabled, Apply;
    }
  }

  lemma {:induction false} RunKeepsOption(s: System, steps: seq<Step>, host: string, on: bool)
    requires IsRun(s, steps) && OptionIs(s, host, on)
    requires forall step <- steps ::
      !(step.AddConfiguration? && step.host == host) && !(step.SetActiveOnly? && step.host == host)
    ensures OptionIs(After(s, steps), host, on)
    decreases |steps|
  {
    hide Enabled, Apply, OptionIs;
    if steps != [] {
      StepKeepsOption(s, steps[0], host, on);
      RunKeepsOption(Apply(s, steps[0]), steps[1..], host, on);
    }
  }

  /** Once the option has been set, every task list that is scheduled asks for what it says, until it is set again. */
  lemma OptionIsCarried(a: seq<Step>, host: string, on: bool, b: seq<Step>, now: int)
    requires IsRun(START, a + [SetActiveOnly(host, on)] + b)
    requires forall step <- b ::
      !(step.AddConfiguration? && step.host == host) && !(step.SetActiveOnly? && step.host == host)
    requires Enabled(After(START, a + [SetActiveOnly(host, on)] + b), Schedule(host, GET_TASKS, now))
    ensures var s := After(START, a + [SetActiveOnly(host, on)] + b);
            var t := Apply(s, Schedule(host, GET_TASKS, now));
            && host in s.hosts && host in t.hosts
            && t.hosts[host].queue.jobs == s.hosts[host].queue.jobs + [Periodic(GET_TASKS, ActiveOnly(on))]
  {
    var chosen := a + [SetActiveOnly(host, on)];
    RunConcat(START, chosen, b);
    RunConcat(START, a, [SetActiveOnly(host, on)]);
    RunKeys(START, a);
    SetActiveOnlyIs(After(START, a), host, on);
    RunNone(After(START, chosen));
    hide Enabled, Apply;
    RunKeepsOption(After(START, chosen), b, host, on);
    ScheduledJobIs(chosen + b, host, GET_TASKS, now);
  }

  lemma StepStaysOff(s: System, step: Step, host: string)
    requires Enabled(s, step) && IsSwitchedOff(s, host) && step != SetScheduling(host, true)
    ensures IsSwitchedOff(Apply(s, step), host)
  {
    if !Configures(step) {
      OthersKeepConfig(s, step);
      hide Enabled, Apply;
    }
  }

  lemma {:induction false} RunStaysOff(s: System, steps: seq<Step>, host: string)
    requires IsRun(s, steps) && IsSwitchedOff(s, host) && SetScheduling(host, true) !in steps
    ensures IsSwitchedOff(After(s, steps), host)
    decreases |steps|
  {
    hide Enabled, Apply, IsSwitchedOff;
    if steps != [] {
      StepStaysOff(s, steps[0], host);
      RunStaysOff(Apply(s, steps[0]), steps[1..], host);
    }
  }

  /** A host whose periodic tasks were switched off, or never switched on, has none scheduled until they are. */
  lemma NothingScheduledWhenOff(a: seq<Step>, b: seq<Step>, host: string, kind: Kind, now: int)
    requires IsRun(START, a + b) && SetScheduling(host, true) !in b
    requires a == [] || a[|a| - 1] == SetScheduling(host, false)
    ensures !Enabled(After(START, a + b), Schedule(host, kind, now))
  {
    RunConcat(START, a, b);
    if a != [] {
      var front := a[..|a| - 1];
      assert a == front + [SetScheduling(host, false)];
      RunConcat(START, front, [SetScheduling(host, false)]);
      RunNone(After(START, a));
    } else {
      RunNone(START);
    }
    RunStaysOff(After(START, a), b, host);
    RunKeys(START, a + b);
    ScheduledIff(After(START, a + b), host, kind, now);
  }

  /** A new interval is the one the scheduler uses once it has refreshed its copy. */
  lemma NewIntervalIsUsed(s: System, kind: Kind, interval: int, b: seq<Step>)
    requires Enabled(s, SetInterval(kind, interval)) && IsRun(Apply(s, SetInterval(kind, interval)), b)
    requires forall step <- b :: !(step.SetInterval? && step.kind == kind)
    requires Enabled(After(Apply(s, SetInterval(kind, interval)), b), RefreshCache)
    ensures Apply(After(Apply(s, SetInterval(kind, interval)), b), RefreshCache).cached[kind] == interval
  {
    RunKeepsInterval(Apply(s, SetInterval(kind, interval)), b, kind, interval);
  }

  lemma StepKeepsInterval(s: System, step: Step, kind: Kind, interval: int)
    requires Enabled(s, step) && s.intervals[kind] == interval && !(step.SetInterval? && step.kind == kind)
    ensures Apply(s, step).intervals[kind] == interval
  {
    hide Executed, Push, Popped, AfterPop, WithTask, JobFor;
  }

  lemma {:induction false} RunKeepsInterval(s: System, steps: seq<Step>, kind: Kind, interval: int)
    requires IsRun(s, steps) && s.intervals[kind] == interval
    requires forall step <- steps :: !(step.SetInterval? && step.kind == kind)
    ensures After(s, steps).intervals[kind] == interval
    decreases |steps|
  {
    hide Enabled, Apply;
    if steps != [] {
      StepKeepsInterval(s, steps[0], kind, interval);
      RunKeepsInterval(Apply(s, steps[0]), steps[1..], kind, interval);
    }
  }

  // ----- no worker gets stuck -----

  /** While nothing has failed, every worker that has not ended can go on, or waits for a job on an open empty queue. */
  lemma WorkersGoOn(s: System, host: string)
    requires !s.failed && host in s.hosts
    ensures var h := s.hosts[host];
            match h.worker
            case Unconnected => Enabled(s, Connect(host))
            case Waiting => Enabled(s, TakeJob(host)) || (h.queue.jobs == [] && !h.queue.closed)
            case Holding(_) => forall outcome :: Enabled(s, Execute(host, outcome))
            case Ran(_) => Enabled(s, PostExecute(host))
            case Exited => true
  {
  }

  /** And so can the clients, the clock and the scheduler's copy of the intervals. */
  lemma TheRestGoesOn(s: System, host: string, message: Message, kind: Kind, interval: int, time: int)
    requires !s.failed
    ensures Enabled(s, SetInterval(kind, interval)) && Enabled(s, RefreshCache)
    ensures time >= s.clock ==> Enabled(s, Wait(time)) && Apply(s, Wait(time)) == s.(clock := time)
    ensures host in s.hosts && message.seqno > 0 && message.seqno > LastSeqno(s.hosts[host].log) ==>
              && Enabled(s, ClientLogs(host, message))
              && Apply(s, ClientLogs(host, message))
                 == s.(hosts := s.hosts[host := s.hosts[host].(log := s.hosts[host].log + [message])])
  {
  }
}
