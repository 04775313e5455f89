/**
  The promises of the periodic scheduling, for every run from the start.
*/
module ProtocolTheorems {
  import opened JobQueues
  import opened Scheduling
  import opened Protocol
  import opened ProtocolKeys
  import opened ProtocolJobs
  import opened ProtocolRuns

  // ----- messages -----

  /**
    Exactly once and in order: in every run, what a host's handlers were given since the host was
    added is a prefix of its client's message log, with failed calls and operations in between.
  */
  lemma ExactlyOnceInOrder(steps: seq<Step>, host: string)
    requires IsRun(START, steps) && NamesApart(steps)
    requires host in After(START, steps).hosts
    ensures After(START, steps).hosts[host].delivered <= After(START, steps).hosts[host].log
  {
    RunFromStart(steps);
    var s := After(START, steps);
    if !s.failed {
      OkIsSafe(s);
    }
    assert HostSafe(s.hosts[host]);
  }

  /** A successful GetMessages delivers everything that is in the log at that moment. */
  lemma DeliveryCatchesUp(steps: seq<Step>, host: string, outcome: Outcome)
    requires IsRun(START, steps) && NamesApart(steps)
    requires Enabled(After(START, steps), Execute(host, outcome)) && outcome.Replied?
    requires IsKind(After(START, steps).hosts[host].worker.job, GET_MESSAGES)
    ensures var t := Apply(After(START, steps), Execute(host, outcome));
            host in t.hosts && t.hosts[host].delivered == t.hosts[host].log
  {
    RunFromStart(steps);
    CatchesUp(After(START, steps), host, outcome);
  }

  lemma CatchesUp(s: System, host: string, outcome: Outcome)
    requires JobsOk(s) && Enabled(s, Execute(host, outcome)) && outcome.Replied?
    requires IsKind(s.hosts[host].worker.job, GET_MESSAGES)
    ensures var t := Apply(s, Execute(host, outcome));
            host in t.hosts && t.hosts[host].delivered == t.hosts[host].log
  {
    hide HostOk, Executed;
    ExecutedCatchesUp(s.context, host, s.hosts[host], outcome);
    ExecuteKeepsLog(s.hosts[host], s.hosts[host].worker.job, outcome);
  }

  lemma ExecuteKeepsLog(h: Host, job: Job, outcome: Outcome)
    ensures Executed(h, job, outcome).log == h.log
  {
  }

  lemma ExecutedCatchesUp(c: Context, name: string, h: Host, outcome: Outcome)
    requires HostOk(c, name, h) && h.worker.Holding? && IsKind(h.worker.job, GET_MESSAGES) && outcome.Replied?
    ensures Executed(h, h.worker.job, outcome).delivered == h.log
  {
    assert h.worker.job in Outstanding(h);
    assert h.log[..|h.delivered|] == h.delivered;
    AboveIsRest(h.log, |h.delivered|);
  }

  // ----- outstanding jobs -----

  function PeriodicCount(jobs: seq<Job>): nat {
    if jobs == [] then 0 else (if jobs[0].Periodic? then 1 else 0) + PeriodicCount(jobs[1..])
  }

  function CountBelow(jobs: seq<Job>, upto: nat): nat
    requires upto <= KIND_COUNT
  {
    if upto == 0 then 0 else CountBelow(jobs, upto - 1) + Count(jobs, upto - 1)
  }

  lemma {:induction false} CountBelowStep(jobs: seq<Job>, upto: nat)
    requires jobs != [] && upto <= KIND_COUNT
    ensures CountBelow(jobs, upto)
         == CountBelow(jobs[1..], upto) + (if jobs[0].Periodic? && jobs[0].kind < upto then 1 else 0)
  {
    if upto > 0 {
      CountBelowStep(jobs, upto - 1);
    }
  }

  lemma {:induction false} PeriodicIsSum(jobs: seq<Job>)
    ensures PeriodicCount(jobs) == CountBelow(jobs, KIND_COUNT)
  {
    if jobs == [] {
      NoneBelow(KIND_COUNT);
    } else {
      CountBelowStep(jobs, KIND_COUNT);
      PeriodicIsSum(jobs[1..]);
    }
  }

  lemma {:induction false} NoneBelow(upto: nat)
    requires upto <= KIND_COUNT
    ensures CountBelow([], upto) == 0
  {
    if upto > 0 {
      NoneBelow(upto - 1);
    }
  }

  lemma {:induction false} BelowBound(jobs: seq<Job>, upto: nat)
    requires upto <= KIND_COUNT && forall k: Kind :: Count(jobs, k) <= 1
    ensures CountBelow(jobs, upto) <= upto
  {
    if upto > 0 {
      BelowBound(jobs, upto - 1);
    }
  }

  /**
    At most one outstanding job per host and task, and before shutdown a task is pending exactly when
    its one job is queued or in the worker's hands; a host never has more than nine periodic jobs.
  */
  lemma PendingIffOutstanding(steps: seq<Step>, host: string)
    requires IsRun(START, steps) && NamesApart(steps) && host in After(START, steps).hosts
    ensures var s := After(START, steps);
            var jobs := Outstanding(s.hosts[host]);
            && (forall k: Kind :: Count(jobs, k) <= 1)
            && PeriodicCount(jobs) <= 9
            && (host in s.context.tasks && !s.context.shutdown && !s.failed ==>
                  forall k: Kind :: s.context.tasks[host][k].pending <==> Count(jobs, k) == 1)
  {
    RunFromStart(steps);
    var s := After(START, steps);
    var jobs := Outstanding(s.hosts[host]);
    if s.failed {
      assert HostSafe(s.hosts[host]);
    } else {
      assert HostOk(s.context, host, s.hosts[host]);
    }
    assert AtMostOne(s.hosts[host]);
    PeriodicIsSum(jobs);
    BelowBound(jobs, KIND_COUNT);
  }

  /**
    An operation goes before every periodic job: when a worker takes a periodic job, no operation is
    left in its queue, so whatever was pushed earlier has been taken, and run, before it.
  */
  lemma OperationsRunFirst(steps: seq<Step>, host: string)
    requires IsRun(START, steps)
    requires Enabled(After(START, steps), TakeJob(host))
    requires var q := After(START, steps).hosts[host].queue; !q.closed && q.jobs[0].Periodic?
    ensures forall j <- After(START, steps).hosts[host].queue.jobs :: !j.Operation?
  {
    RunOperations(START, steps);
    var jobs := After(START, steps).hosts[host].queue.jobs;
    assert OperationsFirst(jobs);
    forall j <- jobs ensures !j.Operation? {
      var i :| 0 <= i < |jobs| && jobs[i] == j;
    }
  }

  /** It does not depend on how the hosts are named. */
  ghost predicate QueuesOk(s: System) {
    forall n <- s.hosts.Keys :: OperationsFirst(s.hosts[n].queue.jobs)
  }

  lemma PushOrder(q: QueueState<Job>, job: Job, front: bool)
    requires OperationsFirst(q.jobs) && (job.Operation? <==> front)
    ensures OperationsFirst(Push(q, job, front).jobs)
  {
  }

  lemma PopOrder(q: QueueState<Job>)
    requires OperationsFirst(q.jobs) && PopReady(q)
    ensures OperationsFirst(AfterPop(q).jobs)
  {
  }

  lemma ScheduleOrder(s: System, host: string, kind: Kind)
    requires KeyChain(s) && QueuesOk(s) && host in s.context.tasks
    ensures QueuesOk(ScheduledStep(s, host, kind))
  {
    hide OperationsFirst, WithPending, Push;
    ScheduledState(s, host, kind);
    PushOrder(s.hosts[host].queue, JobFor(kind, s.context.cursors[host], s.config[host].activeOnlyTasks), false);
  }

  lemma MembershipOrder(s: System, step: Step)
    requires QueuesOk(s) && Enabled(s, step) && IsMembership(step)
    ensures QueuesOk(Apply(s, step))
  {
    NoOrder();
    hide OperationsFirst;
  }

  lemma RescheduleOrder(s: System, step: Step)
    requires QueuesOk(s) && Enabled(s, step) && (step.SetActiveOnly? || step.Reschedule?)
    ensures QueuesOk(Apply(s, step))
  {
    hide OperationsFirst, Rescheduled;
  }

  lemma ExecutedKeepsQueue(h: Host, job: Job, outcome: Outcome)
    ensures Executed(h, job, outcome).queue == h.queue
  {
  }

  lemma HostStepOrder(s: System, step: Step)
    requires QueuesOk(s) && Enabled(s, step) && IsHostStep(step) && !step.TakeJob?
    ensures QueuesOk(Apply(s, step))
  {
    hide OperationsFirst, Executed;
    if step.Execute? {
      ExecutedKeepsQueue(s.hosts[step.host], s.hosts[step.host].worker.job, step.outcome);
    }
  }

  lemma QuietOrder(s: System, step: Step)
    requires QueuesOk(s) && Enabled(s, step) && (IsSetting(step) || step.PostExecute?)
    ensures QueuesOk(Apply(s, step))
  {
    hide OperationsFirst, PostExecuted;
  }

  lemma QueueOrder(s: System, step: Step)
    requires QueuesOk(s) && Enabled(s, step) && (IsPush(step) || step.TakeJob?)
    ensures QueuesOk(Apply(s, step))
  {
    hide OperationsFirst, Push, AfterPop;
    var q := s.hosts[step.host].queue;
    if step.Operate? {
      PushOrder(q, Operation(step.id), true);
    } else if step.Authorize? {
      PushOrder(q, Authorization, false);
    } else {
      PopOrder(q);
    }
  }

  lemma NoOrder()
    ensures OperationsFirst([])
  {
  }

  lemma StepOrder(s: System, step: Step)
    requires KeyChain(s) && QueuesOk(s) && Enabled(s, step)
    ensures QueuesOk(Apply(s, step))
  {
    hide QueuesOk, KeyChain, Enabled, Apply;
    if step.Schedule? {
      ScheduleStepOrder(s, step);
    } else if IsPush(step) || step.TakeJob? {
      QueueOrder(s, step);
    } else if IsMembership(step) {
      MembershipOrder(s, step);
    } else if step.SetActiveOnly? || step.Reschedule? {
      RescheduleOrder(s, step);
    } else if IsHostStep(step) {
      HostStepOrder(s, step);
    } else {
      QuietOrder(s, step);
    }
  }

  lemma ScheduleStepOrder(s: System, step: Step)
    requires KeyChain(s) && QueuesOk(s) && Enabled(s, step) && step.Schedule?
    ensures QueuesOk(Apply(s, step))
  {
    hide KeyChain, QueuesOk, ScheduledStep;
    ScheduleOrder(s, step.host, step.kind);
  }

  lemma {:induction false} RunOperations(s: System, steps: seq<Step>)
    requires KeyChain(s) && QueuesOk(s) && IsRun(s, steps)
    ensures QueuesOk(After(s, steps))
    decreases |steps|
  {
    hide KeyChain, QueuesOk, Enabled, Apply;
    if steps != [] {
      StepKeys(s, steps[0]);
      StepOrder(s, steps[0]);
      RunOperations(Apply(s, steps[0]), steps[1..]);
    }
  }

  // ----- spacing -----

  /** The steps that make a task due at once. */
  predicate Forces(step: Step, host: string, kind: Kind) {
    || step == Reschedule(host, kind)
    || (step.SetActiveOnly? && step.host == host && kind == GET_TASKS)
    || step == RemoveTasks(host)
  }

  /** A worker is about to report a finished job of this task. */
  predicate Completes(s: System, worker: string, host: string, kind: Kind) {
    && Enabled(s, PostExecute(worker))
    && s.hosts[worker].url == host && IsKind(s.hosts[worker].worker.job, kind)
    && host in s.context.tasks && host in s.context.cursors && !s.context.shutdown
  }

  predicate RanSince(s: System, host: string, kind: Kind, time: int) {
    && time <= s.clock
    && host in s.context.tasks
    && s.context.tasks[host][kind].lastExecution.At?
    && time <= s.context.tasks[host][kind].lastExecution.time
  }

  lemma PostRanSince(s: System, worker: string, host: string, kind: Kind, time: int)
    requires RanSince(s, host, kind, time) && Enabled(s, PostExecute(worker))
    ensures RanSince(Apply(s, PostExecute(worker)), host, kind, time)
  {
  }

  lemma StepRanSince(s: System, step: Step, host: string, kind: Kind, time: int)
    requires RanSince(s, host, kind, time) && Enabled(s, step) && !Forces(step, host, kind)
    ensures RanSince(Apply(s, step), host, kind, time)
  {
    if step.PostExecute? {
      PostRanSince(s, step.host, host, kind, time);
    } else if step.Schedule? {
      assert Apply(s, step).clock == s.clock;
    }
  }

  lemma {:induction false} RunRanSince(s: System, steps: seq<Step>, host: string, kind: Kind, time: int)
    requires RanSince(s, host, kind, time) && IsRun(s, steps)
    requires forall step <- steps :: !Forces(step, host, kind)
    ensures RanSince(After(s, steps), host, kind, time)
    decreases |steps|
  {
    if steps != [] {
      StepRanSince(s, steps[0], host, kind, time);
      RunRanSince(Apply(s, steps[0]), steps[1..], host, kind, time);
    }
  }

  lemma ReportedNow(s: System, worker: string, host: string, kind: Kind)
    requires Completes(s, worker, host, kind)
    ensures RanSince(Apply(s, PostExecute(worker)), host, kind, s.clock)
  {
  }

  lemma DueSince(s: System, host: string, kind: Kind, now: int, time: int)
    requires RanSince(s, host, kind, time) && Enabled(s, Schedule(host, kind, now))
    ensures now >= time + s.cached[kind]
  {
  }

  /**
    Spacing: if a job of a task completes and later, with no forced rescheduling in between, a tick
    that read its time `now` schedules the task again, then `now` is at least the completion time plus
    the interval the scheduler has cached, even when `now` was read before the clock moved on.
  */
  lemma Spacing(a: seq<Step>, worker: string, b: seq<Step>, host: string, kind: Kind, now: int)
    requires IsRun(START, a + [PostExecute(worker)] + b + [Schedule(host, kind, now)])
    requires IsRun(START, a) && Completes(After(START, a), worker, host, kind)
    requires forall step <- b :: !Forces(step, host, kind)
    ensures IsRun(START, a + [PostExecute(worker)] + b)
    ensures now >= After(START, a).clock + After(START, a + [PostExecute(worker)] + b).cached[kind]
  {
    hide Enabled, Apply, RanSince, Forces, Completes;
    var s := After(START, a);
    var before := a + [PostExecute(worker)] + b;
    RunConcat(START, before, [Schedule(host, kind, now)]);
    RunConcat(START, a + [PostExecute(worker)], b);
    RunConcat(START, a, [PostExecute(worker)]);
    RunNone(Apply(s, PostExecute(worker)));
    var t := Apply(s, PostExecute(worker));
    assert After(s, [PostExecute(worker)]) == t;
    assert RanSince(t, host, kind, s.clock) by { ReportedNow(s, worker, host, kind); }
    RunRanSince(t, b, host, kind, s.clock);
    DueSince(After(START, before), host, kind, now, s.clock);
  }

  // ----- exceptions in worker threads -----

  /**
    The client reports the url it connects to. A finished periodic job therefore settles its own task
    exactly when the host was added under its url; otherwise the lookup throws, or another host's task
    is settled, and this one stays pending.
  */
  lemma SettledIffNamedByUrl(s: System, host: string)
    requires KeyChain(s) && Enabled(s, PostExecute(host)) && !s.context.shutdown
    requires s.hosts[host].worker.job.Periodic? && host in s.context.tasks
    requires s.context.tasks[host][s.hosts[host].worker.job.kind].pending
    ensures var t := Apply(s, PostExecute(host));
            (!t.failed && host in t.context.tasks && !t.context.tasks[host][s.hosts[host].worker.job.kind].pending)
            <==> s.hosts[host].url == host
  {
  }

  const ONE_JOB: seq<Step> := [Connect("alpha"), SetScheduling("alpha", true), Schedule("alpha", GET_TASKS, 0)]
  const ITS_RUN: seq<Step> := [TakeJob("alpha"), Execute("alpha", RpcFailed)]

  lemma RunOfTwo(s: System, a: Step, b: Step)
    requires Enabled(s, a) && Enabled(Apply(s, a), b)
    ensures IsRun(s, [a, b]) && After(s, [a, b]) == Apply(Apply(s, a), b)
  {
    hide Enabled, Apply;
    RunNone(Apply(Apply(s, a), b));
    RunCons(Apply(s, a), b, []);
    assert [b] + [] == [b] && [a] + [b] == [a, b];
    RunCons(s, a, [b]);
  }

  lemma RunOfThree(s: System, a: Step, b: Step, c: Step)
    requires Enabled(s, a) && Enabled(Apply(s, a), b) && Enabled(Apply(Apply(s, a), b), c)
    ensures IsRun(s, [a, b, c]) && After(s, [a, b, c]) == Apply(Apply(Apply(s, a), b), c)
  {
    hide Enabled, Apply;
    RunOfTwo(Apply(s, a), b, c);
    assert [a] + [b, c] == [a, b, c];
    RunCons(s, a, [b, c]);
  }

  /** The system with the one host "alpha", whose worker may be busy and whose tasks may be pending. */
  function WithAlpha(url: string, settings: HostSettings, worker: Worker, queued: seq<Job>, tasks: Tasks): System {
    START.(config := map["alpha" := settings],
           hosts := map["alpha" := Host(url, QueueState(queued, false), worker, [], [])],
           context := Context(map["alpha" := tasks], map["alpha" := Cursor(0, 0)], false))
  }

  const ALPHA_JOB := Periodic(GET_TASKS, ActiveOnly(false))

  lemma AddingRuns(url: string)
    ensures IsRun(START, Adding("alpha", url))
    ensures After(START, Adding("alpha", url))
         == WithAlpha(url, HostSettings(false, false), Unconnected, [], FRESH_TASKS)
  {
    var add := Adding("alpha", url);
    RunOfThree(START, add[0], add[1], add[2]);
  }

  lemma ConnectingRuns(url: string)
    ensures var s := WithAlpha(url, HostSettings(false, false), Unconnected, [], FRESH_TASKS);
            && Enabled(s, ONE_JOB[0]) && Enabled(Apply(s, ONE_JOB[0]), ONE_JOB[1])
            && Apply(Apply(s, ONE_JOB[0]), ONE_JOB[1])
                == WithAlpha(url, HostSettings(true, false), Waiting, [], FRESH_TASKS)
  {
    var s := WithAlpha(url, HostSettings(false, false), Unconnected, [], FRESH_TASKS);
    var t := WithAlpha(url, HostSettings(false, false), Waiting, [], FRESH_TASKS);
    assert Apply(s, ONE_JOB[0]) == t;
  }

  lemma AlphaIsScheduled(url: string)
    ensures var t := WithAlpha(url, HostSettings(true, false), Waiting, [], FRESH_TASKS);
            && Enabled(t, ONE_JOB[2])
            && Apply(t, ONE_JOB[2]) == WithAlpha(url, HostSettings(true, false), Waiting, [ALPHA_JOB],
                                                 FRESH_TASKS[GET_TASKS := Pending(IDLE)])
  {
    var t := WithAlpha(url, HostSettings(true, false), Waiting, [], FRESH_TASKS);
    assert FRESH_TASKS[GET_TASKS] == IDLE && [] + [ALPHA_JOB] == [ALPHA_JOB];
    assert JobFor(GET_TASKS, Cursor(0, 0), false) == ALPHA_JOB;
    var u := WithAlpha(url, HostSettings(true, false), Waiting, [ALPHA_JOB], FRESH_TASKS[GET_TASKS := Pending(IDLE)]);
    assert ScheduledStep(t, "alpha", GET_TASKS) == u;
  }

  lemma SchedulingRuns(url: string)
    ensures var s := WithAlpha(url, HostSettings(false, false), Unconnected, [], FRESH_TASKS);
            && IsRun(s, ONE_JOB)
            && After(s, ONE_JOB) == WithAlpha(url, HostSettings(true, false), Waiting, [ALPHA_JOB],
                                              FRESH_TASKS[GET_TASKS := Pending(IDLE)])
  {
    var s := WithAlpha(url, HostSettings(false, false), Unconnected, [], FRESH_TASKS);
    assert ONE_JOB == [ONE_JOB[0], ONE_JOB[1], ONE_JOB[2]];
    hide WithAlpha, Enabled, Apply, IsRun, After, ONE_JOB;
    ConnectingRuns(url);
    AlphaIsScheduled(url);
    RunOfThree(s, ONE_JOB[0], ONE_JOB[1], ONE_JOB[2]);
  }

  lemma ExecutingRuns(url: string, tasks: Tasks)
    ensures var s := WithAlpha(url, HostSettings(true, false), Waiting, [ALPHA_JOB], tasks);
            && IsRun(s, ITS_RUN)
            && After(s, ITS_RUN) == WithAlpha(url, HostSettings(true, false), Ran(ALPHA_JOB), [], tasks)
  {
    var s := WithAlpha(url, HostSettings(true, false), Waiting, [ALPHA_JOB], tasks);
    var t := WithAlpha(url, HostSettings(true, false), Holding(ALPHA_JOB), [], tasks);
    assert [ALPHA_JOB][1..] == [];
    assert TakenStep(s, "alpha") == t;
    RunOfTwo(s, ITS_RUN[0], ITS_RUN[1]);
  }

  /** One job of host "alpha", up to the point where its worker is about to report it. */
  lemma OneJobRuns(url: string)
    ensures IsRun(START, Adding("alpha", url)) && IsRun(After(START, Adding("alpha", url)), ONE_JOB)
    ensures var s := After(After(START, Adding("alpha", url)), ONE_JOB);
            && IsRun(s, ITS_RUN)
            && After(s, ITS_RUN) == WithAlpha(url, HostSettings(true, false), Ran(ALPHA_JOB), [],
                                              FRESH_TASKS[GET_TASKS := Pending(IDLE)])
  {
    hide IsRun, After, WithAlpha, Adding, ONE_JOB, ITS_RUN;
    AddingRuns(url);
    SchedulingRuns(url);
    ExecutingRuns(url, FRESH_TASKS[GET_TASKS := Pending(IDLE)]);
  }

  /**
    A host added under a name that is not its url: the report of its first periodic job throws out of the
    worker thread, and that ends the process.
  */
  lemma MisnamedHostFails()
    ensures IsRun(START, Adding("alpha", "10.0.0.1")) && IsRun(After(START, Adding("alpha", "10.0.0.1")), ONE_JOB)
    ensures var s := After(After(START, Adding("alpha", "10.0.0.1")), ONE_JOB);
            && IsRun(s, ITS_RUN) && Enabled(After(s, ITS_RUN), PostExecute("alpha"))
            && Apply(After(s, ITS_RUN), PostExecute("alpha")).failed
  {
    OneJobRuns("10.0.0.1");
    hide IsRun, After, Adding, ONE_JOB, ITS_RUN;
  }

  /** A well-named host that is removed while its job is running: the report throws, and ends the process too. */
  lemma HostRemovedWhileRunningFails()
    ensures IsRun(START, Adding("alpha", "alpha")) && IsRun(After(START, Adding("alpha", "alpha")), ONE_JOB)
    ensures var s := After(After(START, Adding("alpha", "alpha")), ONE_JOB);
            && IsRun(s, ITS_RUN) && Enabled(After(s, ITS_RUN), RemoveTasks("alpha"))
            && var t := Apply(After(s, ITS_RUN), RemoveTasks("alpha"));
               Enabled(t, PostExecute("alpha")) && Apply(t, PostExecute("alpha")).failed
  {
    OneJobRuns("alpha");
    hide IsRun, After, Adding, ONE_JOB, ITS_RUN;
  }

  /**
    When a step of a run fails, however the hosts are named: exactly when a worker reports a periodic
    job, before the shutdown, under a url that the scheduler does not know as a host.
  */
  lemma FailsIffUrlUnknown(steps: seq<Step>, step: Step)
    requires IsRun(START, steps) && Enabled(After(START, steps), step)
    ensures var s := After(START, steps);
            Apply(s, step).failed <==>
              && step.PostExecute? && s.hosts[step.host].worker.job.Periodic? && !s.context.shutdown
              && s.hosts[step.host].url !in s.context.tasks
  {
    RunKeys(START, steps);
    var s := After(START, steps);
    StepKeys(s, step);
    if step.PostExecute? {
      ReportFailsIff(s, step.host);
    }
  }

  lemma ReportFailsIff(s: System, host: string)
    requires KeyChain(s) && Enabled(s, PostExecute(host))
    ensures Apply(s, PostExecute(host)).failed <==>
              s.hosts[host].worker.job.Periodic? && !s.context.shutdown && s.hosts[host].url !in s.context.tasks
  {
  }

  lemma NotBusyWhileAdding(s: System, host: string)
    requires JobsOk(s) && host in s.hosts && s.hosts[host].worker.Ran?
    ensures s.phase != Controlled(host)
  {
    assert s.hosts[host].worker.job in Outstanding(s.hosts[host]);
  }

  /**
    The only exception of a well-named run: a worker reports a finished periodic job while its host is
    being removed, after the scheduler has dropped the host; then it always throws.
  */
  lemma FailsIffRemovedWhileRunning(steps: seq<Step>, step: Step)
    requires IsRun(START, steps) && NamedByUrl(steps) && Enabled(After(START, steps), step)
    ensures var s := After(START, steps);
            Apply(s, step).failed <==>
              && step.PostExecute? && s.hosts[step.host].worker.job.Periodic? && !s.context.shutdown
              && (s.phase == Unscheduled(step.host) || s.phase == Closed(step.host))
  {
    NamedByUrlAreApart(steps);
    RunFromStart(steps);
    FailsIffUrlUnknown(steps, step);
    var s := After(START, steps);
    if step.PostExecute? {
      assert AddConfiguration(step.host, s.hosts[step.host].url) in steps;
      NotBusyWhileAdding(s, step.host);
      DroppedIff(s, step.host);
    }
  }

  lemma DroppedIff(s: System, host: string)
    requires KeyChain(s) && host in s.hosts
    ensures host !in s.context.tasks <==> s.phase in {Unscheduled(host), Closed(host), Controlled(host)}
  {
  }

  /** Once the controller has been stopped no step of any run fails, however the hosts are named. */
  lemma NothingFailsAfterStop(steps: seq<Step>, step: Step)
    requires IsRun(START, steps) && After(START, steps).stopping && Enabled(After(START, steps), step)
    ensures !Apply(After(START, steps), step).failed
  {
    RunKeys(START, steps);
    StoppedStep(After(START, steps), step);
  }

  lemma StoppedStep(s: System, step: Step)
    requires KeyChain(s) && s.stopping && Enabled(s, step)
    ensures !Apply(s, step).failed
  {
    StepKeys(s, step);
    if step.PostExecute? {
      StoppedReport(s, step.host);
    }
  }

  /** A report after the shutdown is ignored by the scheduler. */
  lemma StoppedReport(s: System, host: string)
    requires Enabled(s, PostExecute(host)) && s.context.shutdown
    ensures Apply(s, PostExecute(host)) == WithHostAt(s, host, s.hosts[host].(worker := Waiting))
  {
  }
}
