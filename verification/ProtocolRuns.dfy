/**
  Every step keeps what `ProtocolJobs` says about each host, so every run does, whatever the
  interleaving, the failures of remote calls, the operations in between and the growth of the
  clients' logs.
*/
module ProtocolRuns {
  import opened JobQueues
  import opened Scheduling
  import opened Protocol
  import opened ProtocolKeys
  import opened ProtocolJobs

  /** Every host is added under the name its client will report, which is the url it connects to. */
  predicate NamedByUrl(steps: seq<Step>) {
    forall step <- steps :: step.AddConfiguration? ==> step.url == step.host
  }

  /** No host is added under the url of another one. */
  predicate NamesApart(steps: seq<Step>) {
    forall a, b | a in steps && b in steps && a.AddConfiguration? && b.AddConfiguration? ::
      a.url == b.host ==> a.host == b.host
  }

  lemma NamedByUrlAreApart(steps: seq<Step>)
    requires NamedByUrl(steps)
    ensures NamesApart(steps)
  {
  }

  ghost predicate Good(s: System) {
    KeyChain(s) && if s.failed then Safe(s) else JobsOk(s)
  }

  /** One host changes, and neither the context nor the phase. */
  lemma HostChangeGood(s: System, host: string, h: Host)
    requires JobsOk(s) && host in s.hosts && HostOk(s.context, host, h)
    requires s.phase == Controlled(host) ==> Outstanding(h) == [] && h.delivered == []
    ensures JobsOk(WithHostAt(s, host, h))
  {
  }

  lemma PushedGood(s: System, host: string, job: Job, front: bool)
    requires JobsOk(s) && host in s.hosts && s.phase == Ready && !job.Periodic? && (job.Operation? <==> front)
    ensures JobsOk(Pushed(s, host, job, front))
  {
    PushOther(s.context, host, s.hosts[host], job, front);
    HostChangeGood(s, host, s.hosts[host].(queue := Push(s.hosts[host].queue, job, front)));
  }

  lemma RescheduledFrame(s: System, host: string, kind: Kind)
    ensures var t := RescheduledStep(s, host, kind);
            && t.hosts == s.hosts && t.phase == s.phase
            && t.context.cursors == s.context.cursors && t.context.shutdown == s.context.shutdown
            && t.context.tasks.Keys == s.context.tasks.Keys
            && (forall n <- s.context.tasks.Keys, k: Kind ::
                  t.context.tasks[n][k].pending == s.context.tasks[n][k].pending)
  {
  }

  /** A rescheduling changes no pending flag. */
  lemma RescheduledGood(s: System, host: string, kind: Kind)
    requires JobsOk(s)
    ensures JobsOk(RescheduledStep(s, host, kind))
  {
    hide HostOk, RescheduledStep, Outstanding;
    var t := RescheduledStep(s, host, kind);
    RescheduledFrame(s, host, kind);
    forall n <- t.hosts.Keys ensures HostOk(t.context, n, t.hosts[n]) {
      Frame(s.context, t.context, n, s.hosts[n]);
    }
  }

  lemma PendingFrame(c: Context, host: string, kind: Kind)
    ensures var c' := WithPending(c, host, kind);
            && c'.shutdown == c.shutdown && c'.cursors == c.cursors && c'.tasks.Keys == c.tasks.Keys
            && (forall n <- c.tasks.Keys :: n != host ==> c'.tasks[n] == c.tasks[n])
  {
  }

  lemma ScheduledState(s: System, host: string, kind: Kind)
    requires KeyChain(s) && host in s.context.tasks
    ensures host in s.hosts && host in s.config && host in s.context.cursors
    ensures var job := JobFor(kind, s.context.cursors[host], s.config[host].activeOnlyTasks);
            ScheduledStep(s, host, kind)
            == WithHostAt(s.(context := WithPending(s.context, host, kind)), host,
                          s.hosts[host].(queue := Push(s.hosts[host].queue, job, false)))
  {
    hide WithPending, Push, JobFor;
  }

  lemma ScheduledGood(s: System, host: string, kind: Kind)
    requires KeyChain(s) && JobsOk(s) && host in s.context.tasks && !s.context.shutdown
         && !s.context.tasks[host][kind].pending
    ensures JobsOk(ScheduledStep(s, host, kind))
  {
    ScheduledState(s, host, kind);
    assert HostOk(s.context, host, s.hosts[host]) && !s.hosts[host].queue.closed && s.phase != Controlled(host);
    hide KeyChain, ScheduledStep, Push, WithPending, JobFor;
    ScheduledHostGood(s, host, kind, s.config[host].activeOnlyTasks);
  }

  lemma ScheduledHostGood(s: System, host: string, kind: Kind, activeOnly: bool)
    requires JobsOk(s) && host in s.hosts && !s.hosts[host].queue.closed && s.phase != Controlled(host)
    requires host in s.context.tasks && host in s.context.cursors
    requires !s.context.shutdown && !s.context.tasks[host][kind].pending
    ensures var job := JobFor(kind, s.context.cursors[host], activeOnly);
            JobsOk(WithHostAt(s.(context := WithPending(s.context, host, kind)), host,
                              s.hosts[host].(queue := Push(s.hosts[host].queue, job, false))))
  {
    hide HostOk, WithPending, JobFor, Push, Outstanding;
    var h := s.hosts[host];
    PushPeriodic(s.context, host, h, kind, activeOnly);
    PendingFrame(s.context, host, kind);
    var pushed := h.(queue := Push(h.queue, JobFor(kind, s.context.cursors[host], activeOnly), false));
    OneHost(s, WithHostAt(s.(context := WithPending(s.context, host, kind)), host, pushed), host);
  }

  lemma TakenGood(s: System, host: string)
    requires JobsOk(s) && host in s.hosts && s.hosts[host].worker == Waiting && PopReady(s.hosts[host].queue)
    requires KeyChain(s)
    ensures JobsOk(TakenStep(s, host))
  {
    var h, t := s.hosts[host], TakenStep(s, host);
    if h.queue.closed {
      TakeNothing(s.context, host, h);
    } else {
      Take(s.context, host, h, t.hosts[host]);
    }
    HostChangeGood(s, host, t.hosts[host]);
  }

  lemma ExecutedGood(s: System, host: string, outcome: Outcome)
    requires JobsOk(s) && host in s.hosts && s.hosts[host].worker.Holding?
    ensures JobsOk(WithHostAt(s, host, Executed(s.hosts[host], s.hosts[host].worker.job, outcome)))
  {
    var h := s.hosts[host];
    assert h.worker.job in Outstanding(h);
    if IsKind(h.worker.job, GET_MESSAGES) && outcome.Replied? {
      ExecuteMessages(s.context, host, h, h.worker.job, outcome);
    } else {
      ExecuteOther(s.context, host, h, h.worker.job, outcome);
    }
    HostChangeGood(s, host, Executed(h, h.worker.job, outcome));
  }

  lemma PostContextFrame(c: Context, name: string, job: Job, now: int)
    requires job.Periodic?
    ensures var c' := PostContext(c, name, job, now);
            && c'.shutdown == c.shutdown
            && c'.tasks.Keys == c.tasks.Keys && c'.cursors.Keys == c.cursors.Keys
            && (forall n <- c.tasks.Keys :: n != name ==> c'.tasks[n] == c.tasks[n])
            && (forall n <- c.cursors.Keys :: n != name ==> c'.cursors[n] == c.cursors[n])
  {
  }

  lemma PostExecutedState(s: System, host: string)
    requires host in s.hosts && s.hosts[host].worker.Ran?
    requires s.hosts[host].url == host || s.context.shutdown || !s.hosts[host].worker.job.Periodic?
    ensures var h, t := s.hosts[host], PostExecutedStep(s, host);
            && t.hosts == s.hosts[host := h.(worker := Waiting)] && t.phase == s.phase
            && t.context == if h.worker.job.Periodic? then PostContext(s.context, host, h.worker.job, s.clock)
                            else s.context
  {
  }

  lemma PostExecutedGood(s: System, host: string)
    requires JobsOk(s) && host in s.hosts && s.hosts[host].worker.Ran?
    requires s.hosts[host].url == host || s.context.shutdown || !s.hosts[host].worker.job.Periodic?
    ensures JobsOk(PostExecutedStep(s, host))
  {
    var h, t := s.hosts[host], PostExecutedStep(s, host);
    var job := h.worker.job;
    assert job in Outstanding(h);
    PostExecutedState(s, host);
    if job.Periodic? {
      FinishPeriodic(s.context, host, h, job, s.clock);
      PostContextFrame(s.context, host, job, s.clock);
    } else {
      FinishOther(s.context, host, h, job);
    }
    OneHost(s, t, host);
  }

  lemma MisnamedState(s: System, host: string)
    requires host in s.hosts && s.hosts[host].worker.Ran? && s.hosts[host].worker.job.Periodic?
    requires s.hosts[host].url !in s.context.tasks && !s.context.shutdown
    ensures PostExecutedStep(s, host) == Fail(WithHostAt(s, host, s.hosts[host].(worker := Waiting)))
  {
  }

  /** A report under a name that the scheduler does not know fails, but loses and repeats nothing. */
  lemma MisnamedReportSafe(s: System, host: string)
    requires JobsOk(s) && host in s.hosts && s.hosts[host].worker.Ran? && s.hosts[host].worker.job.Periodic?
    requires s.hosts[host].url !in s.context.tasks && !s.context.shutdown
    ensures PostExecutedStep(s, host).failed && Safe(PostExecutedStep(s, host))
  {
    var h := s.hosts[host];
    assert HostOk(s.context, host, h);
    FinishPeriodic(s.context, host, h, h.worker.job, s.clock);
    assert HostSafe(h.(worker := Waiting));
    OkIsSafe(s);
    MisnamedState(s, host);
  }

  lemma ConnectedGood(s: System, host: string)
    requires JobsOk(s) && host in s.hosts && s.hosts[host].worker == Unconnected
    ensures JobsOk(WithHostAt(s, host, s.hosts[host].(worker := Waiting)))
  {
    var h := s.hosts[host];
    assert Outstanding(h.(worker := Waiting)) == Outstanding(h);
    HostChangeGood(s, host, h.(worker := Waiting));
  }

  lemma LoggedGood(s: System, host: string, message: Message)
    requires JobsOk(s) && host in s.hosts
    requires 0 < message.seqno && LastSeqno(s.hosts[host].log) < message.seqno
    ensures JobsOk(WithHostAt(s, host, s.hosts[host].(log := s.hosts[host].log + [message])))
  {
    var h := s.hosts[host];
    assert LogOk(h.log + [message]) && h.delivered <= h.log + [message];
    assert Outstanding(h.(log := h.log + [message])) == Outstanding(h);
    HostChangeGood(s, host, h.(log := h.log + [message]));
  }

  // ----- adding and removing -----

  lemma ControllerAddedGood(s: System)
    requires KeyChain(s) && JobsOk(s) && s.phase.Configured? && !s.failed
    ensures JobsOk(Apply(s, AddController))
  {
    var t := Apply(s, AddController);
    var h := t.hosts[s.phase.host];
    assert Outstanding(h) == [];
    assert HostOk(t.context, s.phase.host, h);
  }

  /** The host that has been added has no job yet, and its fresh tasks say so. */
  lemma FreshHostOk(c: Context, name: string, h: Host)
    requires HostOk(c, name, h) && Outstanding(h) == [] && h.delivered == []
    requires name !in c.tasks && name !in c.cursors
    ensures HostOk(WithHost(c, name), name, h)
  {
    hide MessagesOk, OperationsFirst;
    assert forall k: Kind :: Count([], k) == 0;
    assert Synchronized(FRESH_TASKS, Cursor(0, 0), h);
  }

  lemma OtherHostOk(c: Context, added: string, name: string, h: Host)
    requires HostOk(c, name, h) && name != added && added !in c.tasks && added !in c.cursors
    ensures HostOk(WithHost(c, added), name, h)
  {
    hide HostOk;
    Frame(c, WithHost(c, added), name, h);
  }

  lemma TasksAddedGood(s: System)
    requires KeyChain(s) && JobsOk(s) && s.phase.Controlled?
    ensures JobsOk(s.(context := WithHost(s.context, s.phase.host), phase := Ready))
  {
    var host := s.phase.host;
    assert host in s.hosts && host !in s.context.tasks && host !in s.context.cursors;
    hide KeyChain, HostOk, Outstanding, WithHost;
    forall n <- s.hosts.Keys ensures HostOk(WithHost(s.context, host), n, s.hosts[n]) {
      if n == host {
        FreshHostOk(s.context, n, s.hosts[n]);
      } else {
        OtherHostOk(s.context, host, n, s.hosts[n]);
      }
    }
  }

  /** The context may lose entries or shut down; hosts may lose their queue or go. */
  lemma ShrinkGood(s: System, t: System)
    requires JobsOk(s) && t.hosts.Keys <= s.hosts.Keys && !t.phase.Controlled? && !t.phase.Configured?
    requires forall n <- t.hosts.Keys ::
      t.hosts[n] == s.hosts[n] || t.hosts[n] == s.hosts[n].(queue := QueueState(s.hosts[n].queue.jobs, true))
    requires t.context.tasks.Keys <= s.context.tasks.Keys && t.context.cursors.Keys <= s.context.cursors.Keys
    requires forall n <- t.context.tasks.Keys :: t.context.tasks[n] == s.context.tasks[n]
    requires forall n <- t.context.cursors.Keys :: t.context.cursors[n] == s.context.cursors[n]
    requires s.context.shutdown ==> t.context.shutdown
    ensures JobsOk(t)
  {
    forall n <- t.hosts.Keys ensures HostOk(t.context, n, t.hosts[n]) {
      Frame(s.context, t.context, n, s.hosts[n]);
      assert Outstanding(t.hosts[n]) == Outstanding(s.hosts[n]);
    }
  }

  lemma QueueClosedGood(s: System)
    requires JobsOk(s) && s.phase.Unscheduled? && s.phase.host in s.hosts && !s.failed
    ensures JobsOk(Apply(s, CloseQueue))
  {
    ShrinkGood(s, Apply(s, CloseQueue));
  }

  lemma ShrinkingStepGood(s: System, step: Step)
    requires JobsOk(s) && Enabled(s, step)
    requires step.RemoveTasks? || step.EraseController? || step.StopController?
    ensures JobsOk(Apply(s, step))
  {
    hide JobsOk, HostOk;
    ShrinkGood(s, Apply(s, step));
  }

  /** Neither a host nor the scheduler's state changes. */
  predicate IsQuiet(step: Step) {
    || step.AddConfiguration? || step.RemoveConfiguration? || step.SetScheduling?
    || step.SetInterval? || step.RefreshCache? || step.Wait?
  }

  lemma QuietStepGood(s: System, step: Step)
    requires JobsOk(s) && Enabled(s, step) && IsQuiet(step)
    ensures JobsOk(Apply(s, step))
  {
    hide HostOk, Outstanding;
  }

  lemma SchedulingStepGood(s: System, step: Step)
    requires KeyChain(s) && JobsOk(s) && Enabled(s, step) && IsScheduling(step)
    ensures JobsOk(Apply(s, step))
  {
    hide HostOk, Outstanding, RescheduledStep, ScheduledStep;
    if step.SetActiveOnly? {
      assert step.host in s.config;
      var settings := s.config[step.host].(activeOnlyTasks := step.on);
      RescheduledGood(s.(config := s.config[step.host := settings]), step.host, GET_TASKS);
    } else if step.Schedule? {
      ScheduledGood(s, step.host, step.kind);
    } else {
      RescheduledGood(s, step.host, step.kind);
    }
  }

  lemma PushStepGood(s: System, step: Step)
    requires JobsOk(s) && Enabled(s, step) && IsPush(step)
    ensures JobsOk(Apply(s, step))
  {
    hide JobsOk, Pushed;
    if step.Operate? {
      PushedGood(s, step.host, Operation(step.id), true);
    } else {
      PushedGood(s, step.host, Authorization, false);
    }
  }

  lemma HostStepGood(s: System, step: Step)
    requires KeyChain(s) && JobsOk(s) && Enabled(s, step) && IsHostStep(step)
    ensures JobsOk(Apply(s, step))
  {
    hide JobsOk, KeyChain, Executed, TakenStep;
    if step.Connect? {
      ConnectedGood(s, step.host);
    } else if step.TakeJob? {
      TakenGood(s, step.host);
    } else if step.Execute? {
      ExecutedGood(s, step.host, step.outcome);
    } else {
      LoggedGood(s, step.host, step.message);
    }
  }

  lemma AddingStepGood(s: System, step: Step)
    requires KeyChain(s) && JobsOk(s) && Enabled(s, step)
    requires step.AddController? || step.AddTasks? || step.CloseQueue?
    ensures JobsOk(Apply(s, step))
  {
    hide JobsOk, KeyChain;
    if step.AddController? {
      ControllerAddedGood(s);
    } else if step.AddTasks? {
      TasksAddedGood(s);
    } else {
      QueueClosedGood(s);
    }
  }

  lemma KnownUrlIsName(s: System, host: string)
    requires KeyChain(s) && UrlsApart(s) && host in s.hosts && s.hosts[host].url in s.context.tasks
    ensures s.hosts[host].url == host
  {
    assert s.context.tasks.Keys <= s.hosts.Keys;
  }

  lemma PostIs(s: System, host: string)
    requires Enabled(s, PostExecute(host))
    ensures Apply(s, PostExecute(host)) == PostExecutedStep(s, host)
  {
    hide PostExecutedStep;
  }

  /** A report either finds its own task or throws, or there is nothing to report. */
  lemma PostGood(s: System, host: string)
    requires KeyChain(s) && JobsOk(s) && UrlsApart(s) && host in s.hosts && s.hosts[host].worker.Ran?
    ensures var t := PostExecutedStep(s, host); if t.failed then Safe(t) else JobsOk(t)
  {
    var h := s.hosts[host];
    if h.worker.job.Periodic? && !s.context.shutdown && h.url !in s.context.tasks {
      hide JobsOk, KeyChain, PostExecutedStep, Safe;
      MisnamedReportSafe(s, host);
    } else {
      if h.url in s.context.tasks {
        KnownUrlIsName(s, host);
      }
      hide JobsOk, KeyChain, PostExecutedStep, Safe, UrlsApart;
      PostExecutedGood(s, host);
      OkIsSafe(PostExecutedStep(s, host));
    }
  }

  lemma PostStepGood(s: System, step: Step)
    requires Good(s) && Enabled(s, step) && step.PostExecute? && UrlsApart(s)
    ensures Good(Apply(s, step))
  {
    hide JobsOk, KeyChain, PostExecutedStep, Safe, Apply, UrlsApart;
    PostIs(s, step.host);
    StepKeys(s, step);
    PostGood(s, step.host);
  }

  // ----- the names of the hosts -----

  /** Every host was added by one of these steps. */
  ghost predicate Named(s: System, all: seq<Step>) {
    && (forall n <- s.hosts.Keys :: AddConfiguration(n, s.hosts[n].url) in all)
    && (s.phase.Configured? ==> AddConfiguration(s.phase.host, s.phase.url) in all)
  }

  ghost predicate UrlsApart(s: System) {
    forall n <- s.hosts.Keys :: s.hosts[n].url in s.hosts ==> s.hosts[n].url == n
  }

  lemma NamedApart(s: System, all: seq<Step>)
    requires Named(s, all) && NamesApart(all)
    ensures UrlsApart(s)
  {
    forall n <- s.hosts.Keys ensures s.hosts[n].url in s.hosts ==> s.hosts[n].url == n {
      var m := s.hosts[n].url;
      if m in s.hosts {
        assert AddConfiguration(n, m) in all && AddConfiguration(m, s.hosts[m].url) in all;
      }
    }
  }

  /** Hosts keep their urls, and none appears but by the sub-steps of adding it. */
  lemma StepNamed(s: System, step: Step, all: seq<Step>)
    requires Named(s, all) && KeyChain(s) && Enabled(s, step)
    requires step.AddConfiguration? ==> step in all
    ensures Named(Apply(s, step), all)
  {
    hide KeyChain, Enabled, Apply;
    if IsMembership(step) {
      MembershipNamed(s, step, all);
    } else {
      UrlsKept(s, step);
    }
  }

  lemma MembershipNamed(s: System, step: Step, all: seq<Step>)
    requires Named(s, all) && Enabled(s, step) && IsMembership(step)
    requires step.AddConfiguration? ==> step in all
    ensures Named(Apply(s, step), all)
  {
  }

  /** The same hosts with the same urls. */
  ghost predicate SameUrls(s: System, t: System) {
    && t.phase == s.phase && t.hosts.Keys == s.hosts.Keys
    && forall n <- s.hosts.Keys :: t.hosts[n].url == s.hosts[n].url
  }

  lemma SchedulingUrls(s: System, step: Step)
    requires KeyChain(s) && Enabled(s, step) && IsScheduling(step)
    ensures SameUrls(s, Apply(s, step))
  {
    hide ScheduledStep, RescheduledStep;
    if step.SetActiveOnly? {
      var settings := s.config[step.host].(activeOnlyTasks := step.on);
      RescheduledFrame(s.(config := s.config[step.host := settings]), step.host, GET_TASKS);
    } else if step.Schedule? {
      hide KeyChain;
      ScheduledState(s, step.host, step.kind);
    } else {
      RescheduledFrame(s, step.host, step.kind);
    }
  }

  lemma ExecutedKeepsUrl(h: Host, job: Job, outcome: Outcome)
    ensures Executed(h, job, outcome).url == h.url
  {
  }

  lemma HostStepUrls(s: System, step: Step)
    requires Enabled(s, step) && IsHostStep(step)
    ensures SameUrls(s, Apply(s, step))
  {
    hide Executed;
    if step.Execute? {
      ExecutedKeepsUrl(s.hosts[step.host], s.hosts[step.host].worker.job, step.outcome);
    }
  }

  lemma PostUrls(s: System, step: Step)
    requires Enabled(s, step) && step.PostExecute?
    ensures SameUrls(s, Apply(s, step))
  {
    hide PostExecuted;
  }

  lemma OtherUrls(s: System, step: Step)
    requires Enabled(s, step) && (IsSetting(step) || (IsPush(step) && step.host in s.hosts))
    ensures SameUrls(s, Apply(s, step))
  {
  }

  lemma UrlsKept(s: System, step: Step)
    requires KeyChain(s) && Enabled(s, step) && !IsMembership(step)
    ensures SameUrls(s, Apply(s, step))
  {
    if IsPush(step) { assert step.host in s.hosts; }
    hide KeyChain, Enabled, Apply, SameUrls;
    if IsScheduling(step) {
      SchedulingUrls(s, step);
    } else if IsHostStep(step) {
      HostStepUrls(s, step);
    } else if step.PostExecute? {
      PostUrls(s, step);
    } else {
      OtherUrls(s, step);
    }
  }

  // ----- every step, every run -----

  lemma StepGood(s: System, step: Step)
    requires Good(s) && Enabled(s, step) && UrlsApart(s)
    ensures Good(Apply(s, step))
  {
    assert !s.failed && JobsOk(s);
    hide JobsOk, KeyChain, Enabled, Apply, Safe, UrlsApart;
    StepKeys(s, step);
    if step.PostExecute? {
      PostStepGood(s, step);
    } else if IsQuiet(step) {
      QuietStepGood(s, step);
    } else if IsScheduling(step) {
      SchedulingStepGood(s, step);
    } else if IsPush(step) {
      PushStepGood(s, step);
    } else if IsHostStep(step) {
      HostStepGood(s, step);
    } else if step.RemoveTasks? || step.EraseController? || step.StopController? {
      ShrinkingStepGood(s, step);
    } else {
      AddingStepGood(s, step);
    }
  }

  lemma {:induction false} RunGood(s: System, steps: seq<Step>, all: seq<Step>)
    requires Good(s) && Named(s, all) && IsRun(s, steps) && NamesApart(all)
    requires forall step <- steps :: step in all
    ensures Good(After(s, steps)) && Named(After(s, steps), all)
    decreases |steps|
  {
    hide Good, Named, NamesApart, Enabled, Apply;
    if steps != [] {
      assert steps[0] in all && forall step <- steps[1..] :: step in all;
      EnabledGood(s, steps[0]);
      NamedApart(s, all);
      StepGood(s, steps[0]);
      StepNamed(s, steps[0], all);
      RunGood(Apply(s, steps[0]), steps[1..], all);
    }
  }

  lemma EnabledGood(s: System, step: Step)
    requires Good(s) && Enabled(s, step)
    ensures KeyChain(s) && JobsOk(s)
  {
  }

  lemma RunFromStart(steps: seq<Step>)
    requires IsRun(START, steps) && NamesApart(steps)
    ensures Good(After(START, steps)) && Named(After(START, steps), steps)
  {
    RunGood(START, steps, steps);
  }
}
