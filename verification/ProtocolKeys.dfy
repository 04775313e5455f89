/**
  The chain of key sets: the scheduler's maps, the host controllers and the configuration, at every
  point between the sub-steps of adding and removing hosts. It needs no assumption about urls.
*/
module ProtocolKeys {
  import opened JobQueues
  import opened Scheduling
  import opened Protocol

  ghost predicate PhaseKeys(s: System) {
    var tasks, hosts, config := s.context.tasks.Keys, s.hosts.Keys, s.config.Keys;
    match s.phase
    case Ready => tasks == hosts == config
    case Configured(h, url) => tasks == hosts && h !in hosts && config == hosts + {h}
    case Controlled(h) => h in hosts && tasks == hosts - {h} && hosts == config
    case Unscheduled(h) => h in hosts && tasks == hosts - {h} && hosts == config
    case Closed(h) => h in hosts && tasks == hosts - {h} && hosts == config
    case Erased(h) => tasks == hosts && h !in hosts && config == hosts + {h}
  }

  ghost predicate KeyChain(s: System) {
    && s.context.tasks.Keys == s.context.cursors.Keys
    && PhaseKeys(s)
    && (forall h <- s.hosts.Keys :: s.hosts[h].queue.closed <==> s.phase == Closed(h))
    && s.context.shutdown == s.stopping
  }

  // ----- the changes a step can make -----

  lemma HostChangeKeys(s: System, host: string, h: Host)
    requires KeyChain(s) && host in s.hosts && h.queue.closed == s.hosts[host].queue.closed
    ensures KeyChain(WithHostAt(s, host, h))
  {
  }

  /** A change of the context that keeps its keys. */
  ghost predicate SameKeys(c: Context, c': Context) {
    c'.tasks.Keys == c.tasks.Keys && c'.cursors.Keys == c.cursors.Keys && c'.shutdown == c.shutdown
  }

  lemma ContextChangeKeys(s: System, c: Context)
    requires KeyChain(s) && SameKeys(s.context, c)
    ensures KeyChain(s.(context := c))
  {
  }

  lemma ConfigChangeKeys(s: System, host: string, settings: HostSettings)
    requires KeyChain(s) && host in s.config
    ensures KeyChain(s.(config := s.config[host := settings]))
  {
    assert s.config[host := settings].Keys == s.config.Keys;
  }

  lemma PushKeys(s: System, host: string, job: Job, front: bool)
    requires KeyChain(s) && host in s.hosts
    ensures KeyChain(Pushed(s, host, job, front)) && Pushed(s, host, job, front).failed == s.failed
  {
    HostChangeKeys(s, host, s.hosts[host].(queue := Push(s.hosts[host].queue, job, front)));
  }

  lemma ScheduledKeys(s: System, host: string, kind: Kind)
    requires KeyChain(s) && host in s.context.tasks
    ensures KeyChain(ScheduledStep(s, host, kind)) && ScheduledStep(s, host, kind).failed == s.failed
  {
    assert host in s.hosts && host in s.config && host in s.context.cursors;
    var c := WithPending(s.context, host, kind);
    ContextChangeKeys(s, c);
    PushKeys(s.(context := c), host, JobFor(kind, s.context.cursors[host], s.config[host].activeOnlyTasks), false);
  }

  lemma RescheduledKeys(s: System, host: string, kind: Kind)
    requires KeyChain(s) && host in s.context.tasks
    ensures KeyChain(RescheduledStep(s, host, kind)) && RescheduledStep(s, host, kind).failed == s.failed
  {
    ContextChangeKeys(s, Rescheduled(s.context, host, kind).value);
  }

  lemma TakenKeys(s: System, host: string)
    requires KeyChain(s) && host in s.hosts && PopReady(s.hosts[host].queue)
    ensures KeyChain(TakenStep(s, host)) && TakenStep(s, host).failed == s.failed
  {
    HostChangeKeys(s, host, TakenStep(s, host).hosts[host]);
  }

  lemma PostContextKeys(c: Context, host: string, job: Job, now: int)
    requires job.Periodic? && PostExecuted(c, host, job, now).Some?
    ensures SameKeys(c, PostExecuted(c, host, job, now).value)
  {
  }

  lemma PostExecutedKeys(s: System, host: string)
    requires KeyChain(s) && host in s.hosts && s.hosts[host].worker.Ran?
    ensures KeyChain(PostExecutedStep(s, host))
  {
    var h := s.hosts[host];
    var idle := WithHostAt(s, host, h.(worker := Waiting));
    HostChangeKeys(s, host, h.(worker := Waiting));
    if h.worker.job.Periodic? && PostExecuted(s.context, h.url, h.worker.job, s.clock).Some? {
      PostContextKeys(s.context, h.url, h.worker.job, s.clock);
      ContextChangeKeys(idle, PostExecuted(s.context, h.url, h.worker.job, s.clock).value);
    }
  }

  predicate IsMembership(step: Step) {
    || step.AddConfiguration? || step.AddController? || step.AddTasks?
    || step.RemoveTasks? || step.CloseQueue? || step.EraseController? || step.RemoveConfiguration?
  }

  lemma AddKeys(s: System, step: Step)
    requires KeyChain(s) && Enabled(s, step)
    requires step.AddConfiguration? || step.AddController? || step.AddTasks?
    ensures KeyChain(Apply(s, step)) && !Apply(s, step).failed
  {
  }

  lemma DropKeys(s: System, step: Step)
    requires KeyChain(s) && Enabled(s, step)
    requires step.RemoveTasks? || step.CloseQueue?
    ensures KeyChain(Apply(s, step)) && !Apply(s, step).failed
  {
  }

  lemma EraseKeys(s: System, step: Step)
    requires KeyChain(s) && Enabled(s, step)
    requires step.EraseController? || step.RemoveConfiguration?
    ensures KeyChain(Apply(s, step)) && !Apply(s, step).failed
  {
  }

  lemma MembershipKeys(s: System, step: Step)
    requires KeyChain(s) && Enabled(s, step) && IsMembership(step)
    ensures KeyChain(Apply(s, step)) && !Apply(s, step).failed
  {
    if step.AddConfiguration? || step.AddController? || step.AddTasks? {
      AddKeys(s, step);
    } else if step.RemoveTasks? || step.CloseQueue? {
      DropKeys(s, step);
    } else {
      EraseKeys(s, step);
    }
  }

  lemma ExecutedKeys(s: System, host: string, job: Job, outcome: Outcome)
    requires KeyChain(s) && host in s.hosts
    ensures KeyChain(WithHostAt(s, host, Executed(s.hosts[host], job, outcome)))
  {
    HostChangeKeys(s, host, Executed(s.hosts[host], job, outcome));
  }

  /** Only settings, the clock or the shutdown flags change. */
  predicate IsSetting(step: Step) {
    step.StopController? || step.SetScheduling? || step.SetInterval? || step.RefreshCache? || step.Wait?
  }

  lemma SettingKeys(s: System, step: Step)
    requires KeyChain(s) && Enabled(s, step) && IsSetting(step)
    ensures KeyChain(Apply(s, step)) && !Apply(s, step).failed
  {
    if step.SetScheduling? {
      ConfigChangeKeys(s, step.host, s.config[step.host].(schedulePeriodicTasks := step.on));
    }
  }

  /** The scheduler's task states change. */
  predicate IsScheduling(step: Step) {
    step.SetActiveOnly? || step.Schedule? || step.Reschedule?
  }

  lemma SchedulingKeys(s: System, step: Step)
    requires KeyChain(s) && Enabled(s, step) && IsScheduling(step)
    ensures KeyChain(Apply(s, step)) && !Apply(s, step).failed
  {
    hide ScheduledStep, RescheduledStep;
    if step.SetActiveOnly? {
      var settings := s.config[step.host].(activeOnlyTasks := step.on);
      ConfigChangeKeys(s, step.host, settings);
      RescheduledKeys(s.(config := s.config[step.host := settings]), step.host, GET_TASKS);
    } else if step.Schedule? {
      ScheduledKeys(s, step.host, step.kind);
    } else {
      RescheduledKeys(s, step.host, step.kind);
    }
  }

  /** The controller pushes a job. */
  predicate IsPush(step: Step) {
    step.Operate? || step.Authorize?
  }

  lemma PushStepKeys(s: System, step: Step)
    requires KeyChain(s) && Enabled(s, step) && IsPush(step)
    ensures KeyChain(Apply(s, step)) && !Apply(s, step).failed
  {
    hide Pushed;
    if step.Operate? {
      PushKeys(s, step.host, Operation(step.id), true);
    } else {
      PushKeys(s, step.host, Authorization, false);
    }
  }

  /** One host, its worker or its client takes a step. */
  predicate IsHostStep(step: Step) {
    step.Connect? || step.TakeJob? || step.Execute? || step.ClientLogs?
  }

  lemma HostStepKeys(s: System, step: Step)
    requires KeyChain(s) && Enabled(s, step) && IsHostStep(step)
    ensures KeyChain(Apply(s, step)) && !Apply(s, step).failed
  {
    hide Executed, TakenStep;
    var h := s.hosts[step.host];
    if step.Connect? {
      HostChangeKeys(s, step.host, h.(worker := Waiting));
    } else if step.TakeJob? {
      TakenKeys(s, step.host);
    } else if step.Execute? {
      ExecutedKeys(s, step.host, h.worker.job, step.outcome);
    } else {
      HostChangeKeys(s, step.host, h.(log := h.log + [step.message]));
    }
  }

  lemma PostStepKeys(s: System, step: Step)
    requires KeyChain(s) && Enabled(s, step) && step.PostExecute?
    ensures KeyChain(Apply(s, step))
  {
    hide PostExecutedStep;
    PostExecutedKeys(s, step.host);
  }

  lemma StepKeys(s: System, step: Step)
    requires KeyChain(s) && Enabled(s, step)
    ensures KeyChain(Apply(s, step))
    ensures Apply(s, step).failed ==> step.PostExecute?
  {
    hide KeyChain, Enabled, Apply;
    if IsMembership(step) {
      MembershipKeys(s, step);
    } else if IsSetting(step) {
      SettingKeys(s, step);
    } else if IsScheduling(step) {
      SchedulingKeys(s, step);
    } else if IsPush(step) {
      PushStepKeys(s, step);
    } else if IsHostStep(step) {
      HostStepKeys(s, step);
    } else {
      PostStepKeys(s, step);
    }
  }

  lemma {:induction false} RunKeys(s: System, steps: seq<Step>)
    requires KeyChain(s) && IsRun(s, steps)
    ensures KeyChain(After(s, steps))
    decreases |steps|
  {
    if steps != [] {
      StepKeys(s, steps[0]);
      RunKeys(Apply(s, steps[0]), steps[1..]);
    }
  }

  /**
    The chain in every reachable state, also between the sub-steps of adding and removing a host: the
    scheduler knows only hosts that have a controller with an open queue, and a configuration.
  */
  lemma KeyChainOverRuns(steps: seq<Step>)
    requires IsRun(START, steps)
    ensures var s := After(START, steps);
            && s.context.tasks.Keys == s.context.cursors.Keys <= s.hosts.Keys <= s.config.Keys
            && (forall h <- s.context.tasks.Keys :: !s.hosts[h].queue.closed)
            && (s.phase == Ready ==> s.context.tasks.Keys == s.config.Keys)
  {
    RunKeys(START, steps);
  }

  /**
    No lookup on the scheduling path fails, and what the scheduler pushes is accepted: whenever a tick
    may schedule a task, the step ends with that job at the back of an open queue.
  */
  lemma SchedulingNeverFails(steps: seq<Step>, host: string, kind: Kind, now: int)
    requires IsRun(START, steps) && Enabled(After(START, steps), Schedule(host, kind, now))
    ensures var s := After(START, steps);
            var t := Apply(s, Schedule(host, kind, now));
            && !t.failed
            && host in s.hosts && host in t.hosts && host in s.context.cursors && host in s.config
            && t.hosts[host].queue.jobs
               == s.hosts[host].queue.jobs + [JobFor(kind, s.context.cursors[host], s.config[host].activeOnlyTasks)]
  {
    RunKeys(START, steps);
    ScheduledKeys(After(START, steps), host, kind);
  }
}
