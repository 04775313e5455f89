/**
  Each host's queue in a run of the system is a queue of `JobQueues` with the history of calls that the
  run's steps made on it since the host was added, so what is true of every history is true in every run.
*/
module ProtocolQueues {
  import opened JobQueues
  import opened Scheduling
  import opened Protocol
  import opened ProtocolKeys
  import opened ProtocolRuns
  import opened ProtocolTheorems

  // ----- the history of one queue -----

  /** The host gets a new controller, and with it a new queue. */
  predicate Adds(s: System, step: Step, host: string) {
    step.AddController? && s.phase.Configured? && s.phase.host == host
  }

  /** What a step calls on the host's queue, if anything. */
  function CallsOf(s: System, step: Step, host: string): seq<Call<Job>> {
    if step.Schedule? && step.host == host && host in s.context.cursors && host in s.config then
      [PushBack(JobFor(step.kind, s.context.cursors[host], s.config[host].activeOnlyTasks))]
    else if step.Operate? && step.host == host then [PushFront(Operation(step.id))]
    else if step == Authorize(host) then [PushBack(Authorization)]
    else if step == TakeJob(host) then [Pop]
    else if step.CloseQueue? && s.phase == Unscheduled(host) then [Shutdown]
    else []
  }

  /** The calls on the host's queue since the host was added, the earlier ones being `before`. */
  function History(s: System, before: seq<Call<Job>>, steps: seq<Step>, host: string): seq<Call<Job>>
    requires IsRun(s, steps)
    decreases |steps|
  {
    if steps == [] then before
    else
      var calls := if Adds(s, steps[0], host) then [] else before + CallsOf(s, steps[0], host);
      History(Apply(s, steps[0]), calls, steps[1..], host)
  }

  /** The job the host's worker gets by this step. */
  function Gets(s: System, step: Step, host: string): seq<Job>
    requires Enabled(s, step)
  {
    if step == TakeJob(host) && Apply(s, step).hosts[host].worker.Holding? then
      [Apply(s, step).hosts[host].worker.job]
    else
      []
  }

  /** The jobs its workers have got since the host was added, in order. */
  function Taken(s: System, before: seq<Job>, steps: seq<Step>, host: string): seq<Job>
    requires IsRun(s, steps)
    decreases |steps|
  {
    if steps == [] then before
    else
      var jobs := if Adds(s, steps[0], host) then [] else before + Gets(s, steps[0], host);
      Taken(Apply(s, steps[0]), jobs, steps[1..], host)
  }

  function QueueAfter(q: QueueState<Job>, calls: seq<Call<Job>>): QueueState<Job> {
    if calls == [] then q else Called(q, calls[0])
  }

  // ----- one step -----

  /** The step does to the host's queue what its call does, and nothing else. */
  ghost predicate QueueSteps(s: System, step: Step, host: string)
    requires Enabled(s, step)
  {
    var t := Apply(s, step);
    host in t.hosts ==>
      if Adds(s, step, host) then t.hosts[host].queue == QueueState([], false)
      else host in s.hosts && t.hosts[host].queue == QueueAfter(s.hosts[host].queue, CallsOf(s, step, host))
  }

  lemma MembershipQueue(s: System, step: Step, host: string)
    requires Enabled(s, step) && IsMembership(step)
    ensures QueueSteps(s, step, host)
  {
  }

  lemma SettingQueue(s: System, step: Step, host: string)
    requires Enabled(s, step) && IsSetting(step)
    ensures QueueSteps(s, step, host)
  {
  }

  lemma ScheduleQueue(s: System, step: Step, host: string)
    requires KeyChain(s) && Enabled(s, step) && step.Schedule?
    ensures QueueSteps(s, step, host)
  {
    ScheduledState(s, step.host, step.kind);
    hide KeyChain, ScheduledStep, WithPending, JobFor, Due, Push;
  }

  /** A rescheduling changes no host. */
  lemma RescheduleHosts(s: System, step: Step)
    requires KeyChain(s) && Enabled(s, step) && IsScheduling(step) && !step.Schedule?
    ensures Apply(s, step).hosts == s.hosts
  {
    hide RescheduledStep;
    if step.SetActiveOnly? {
      var settings := s.config[step.host].(activeOnlyTasks := step.on);
      RescheduledFrame(s.(config := s.config[step.host := settings]), step.host, GET_TASKS);
    } else {
      RescheduledFrame(s, step.host, step.kind);
    }
  }

  lemma SchedulingQueue(s: System, step: Step, host: string)
    requires KeyChain(s) && Enabled(s, step) && IsScheduling(step)
    ensures QueueSteps(s, step, host)
  {
    hide KeyChain, Enabled, Apply;
    if step.Schedule? {
      ScheduleQueue(s, step, host);
    } else {
      RescheduleHosts(s, step);
    }
  }

  lemma PushQueue(s: System, step: Step, host: string)
    requires Enabled(s, step) && IsPush(step)
    ensures QueueSteps(s, step, host)
  {
    hide Push;
  }

  lemma TakeQueue(s: System, taker: string, host: string)
    requires Enabled(s, TakeJob(taker))
    ensures QueueSteps(s, TakeJob(taker), host)
  {
    hide Popped, AfterPop;
  }

  /** No other step of a host touches a queue. */
  lemma HostStepQueues(s: System, step: Step)
    requires Enabled(s, step) && IsHostStep(step) && !step.TakeJob?
    ensures var t := Apply(s, step);
            t.hosts.Keys == s.hosts.Keys && forall n <- s.hosts.Keys :: t.hosts[n].queue == s.hosts[n].queue
  {
    hide Executed;
    if step.Execute? {
      ExecutedKeepsQueue(s.hosts[step.host], s.hosts[step.host].worker.job, step.outcome);
    }
  }

  lemma HostStepQueue(s: System, step: Step, host: string)
    requires Enabled(s, step) && IsHostStep(step)
    ensures QueueSteps(s, step, host)
  {
    hide Enabled, Apply;
    if step.TakeJob? {
      TakeQueue(s, step.host, host);
    } else {
      HostStepQueues(s, step);
    }
  }

  lemma PostQueue(s: System, step: Step, host: string)
    requires Enabled(s, step) && step.PostExecute?
    ensures QueueSteps(s, step, host)
  {
    hide PostExecuted;
  }

  lemma StepQueue(s: System, step: Step, host: string)
    requires KeyChain(s) && Enabled(s, step)
    ensures QueueSteps(s, step, host)
  {
    hide KeyChain, Enabled, Apply, QueueSteps;
    if IsMembership(step) {
      MembershipQueue(s, step, host);
    } else if IsSetting(step) {
      SettingQueue(s, step, host);
    } else if IsScheduling(step) {
      SchedulingQueue(s, step, host);
    } else if IsPush(step) {
      PushQueue(s, step, host);
    } else if IsHostStep(step) {
      HostStepQueue(s, step, host);
    } else {
      PostQueue(s, step, host);
    }
  }

  /** What a worker gets by a step is what the call hands out. */
  lemma GetsIsHandedOut(s: System, step: Step, host: string)
    requires Enabled(s, step) && host in s.hosts
    ensures Gets(s, step, host)
         == if CallsOf(s, step, host) == [] then [] else HandedOut(s.hosts[host].queue, CallsOf(s, step, host)[0])
  {
    hide JobFor;
    if step != TakeJob(host) {
      hide Enabled, Apply;
      assert CallsOf(s, step, host) != [] ==> !CallsOf(s, step, host)[0].Pop?;
    }
  }

  // ----- whole runs -----

  lemma CallsAppend(calls: seq<Call<Job>>, more: seq<Call<Job>>)
    requires |more| <= 1
    ensures Run(calls + more) == QueueAfter(Run(calls), more)
    ensures Output(calls + more) == Output(calls) + (if more == [] then [] else HandedOut(Run(calls), more[0]))
  {
    if more == [] {
      assert calls + more == calls;
    } else {
      assert Init(calls + more) == calls && Last(calls + more) == more[0];
    }
  }

  /** The history tells both what is queued and what has been taken. */
  ghost predicate Told(s: System, calls: seq<Call<Job>>, taken: seq<Job>, host: string) {
    host in s.hosts ==> s.hosts[host].queue == Run(calls) && taken == Output(calls)
  }

  lemma StepTold(s: System, calls: seq<Call<Job>>, taken: seq<Job>, step: Step, host: string)
    requires KeyChain(s) && Enabled(s, step) && Told(s, calls, taken, host)
    ensures if Adds(s, step, host) then Told(Apply(s, step), [], [], host)
            else Told(Apply(s, step), calls + CallsOf(s, step, host), taken + Gets(s, step, host), host)
  {
    hide KeyChain, Enabled, Apply, Gets, Run, Output;
    StepQueue(s, step, host);
    assert Run<Job>([]) == QueueState([], false) && Output<Job>([]) == [] by { CallsNone(); }
    if !Adds(s, step, host) && host in Apply(s, step).hosts {
      GetsIsHandedOut(s, step, host);
      CallsAppend(calls, CallsOf(s, step, host));
    }
  }

  lemma CallsNone()
    ensures Run<Job>([]) == QueueState([], false) && Output<Job>([]) == []
  {
  }

  lemma {:induction false} RunTold(s: System, calls: seq<Call<Job>>, taken: seq<Job>, steps: seq<Step>, host: string)
    requires KeyChain(s) && IsRun(s, steps) && Told(s, calls, taken, host)
    ensures Told(After(s, steps), History(s, calls, steps, host), Taken(s, taken, steps, host), host)
    decreases |steps|
  {
    hide KeyChain, Enabled, Apply, CallsOf, Gets, Told;
    if steps != [] {
      var step := steps[0];
      StepKeys(s, step);
      StepTold(s, calls, taken, step, host);
      if Adds(s, step, host) {
        RunTold(Apply(s, step), [], [], steps[1..], host);
      } else {
        RunTold(Apply(s, step), calls + CallsOf(s, step, host), taken + Gets(s, step, host), steps[1..], host);
      }
    }
  }

  /** In every run, a host's queue and what its workers have taken from it are those of the queue's history. */
  lemma QueueIsHistory(steps: seq<Step>, host: string)
    requires IsRun(START, steps) && host in After(START, steps).hosts
    ensures var calls := History(START, [], steps, host);
            && After(START, steps).hosts[host].queue == Run(calls)
            && Taken(START, [], steps, host) == Output(calls)
  {
    RunTold(START, [], [], steps, host);
  }

  /**
    Conservation in the system: every job accepted for a host since it was added has been taken by one
    of its workers or is still queued, and nothing else ever is.
  */
  lemma JobsConserved(steps: seq<Step>, host: string)
    requires IsRun(START, steps) && host in After(START, steps).hosts
    ensures var books := Account(History(START, [], steps, host));
            multiset(books.urgent) + multiset(books.regular)
            == multiset(Taken(START, [], steps, host)) + multiset(After(START, steps).hosts[host].queue.jobs)
  {
    QueueIsHistory(steps, host);
    Conservation(History(START, [], steps, host));
  }

  // ----- operations go first, over runs -----

  /** The host is not there, nor is it being added. */
  predicate Absent(s: System, host: string) {
    host !in s.hosts && !(s.phase.Configured? && s.phase.host == host)
  }

  lemma StepAbsent(s: System, step: Step, host: string)
    requires KeyChain(s) && Enabled(s, step) && Absent(s, host)
    requires !(step.AddConfiguration? && step.host == host)
    ensures Absent(Apply(s, step), host)
  {
    hide KeyChain;
    if !IsMembership(step) {
      hide Enabled, Apply;
      UrlsKept(s, step);
    }
  }

  lemma {:induction false} RunAbsent(s: System, steps: seq<Step>, host: string)
    requires KeyChain(s) && IsRun(s, steps) && Absent(s, host)
    requires forall step <- steps :: !(step.AddConfiguration? && step.host == host)
    ensures Absent(After(s, steps), host)
    decreases |steps|
  {
    hide KeyChain, Enabled, Apply, Absent;
    if steps != [] {
      StepKeys(s, steps[0]);
      StepAbsent(s, steps[0], host);
      RunAbsent(Apply(s, steps[0]), steps[1..], host);
    }
  }

  /** Somewhere in the run the worker takes this job, and what was queued before it is still waiting behind it. */
  ghost predicate TakesFirst(s: System, steps: seq<Step>, host: string, job: Job, older: seq<Job>)
    requires IsRun(s, steps)
  {
    exists i :: 0 <= i < |steps| && steps[i] == TakeJob(host) && IsNextAt(s, steps[..i], host, job, older)
  }

  ghost predicate IsNextAt(s: System, steps: seq<Step>, host: string, job: Job, older: seq<Job>) {
    && IsRun(s, steps) && host in After(s, steps).hosts
    && IsNext(After(s, steps).hosts[host].queue, job, older)
  }

  lemma TakesLater(s: System, steps: seq<Step>, host: string, job: Job, older: seq<Job>)
    requires IsRun(s, steps) && steps != []
    requires TakesFirst(Apply(s, steps[0]), steps[1..], host, job, older)
    ensures TakesFirst(s, steps, host, job, older)
  {
    hide Enabled, Apply;
    var t := Apply(s, steps[0]);
    var i :| 0 <= i < |steps[1..]| && steps[1..][i] == TakeJob(host) && IsNextAt(t, steps[1..][..i], host, job, older);
    assert steps[..i + 1][1..] == steps[1..][..i];
    assert steps[i + 1] == TakeJob(host) && IsNextAt(s, steps[..i + 1], host, job, older);
  }

  lemma TakesNow(s: System, steps: seq<Step>, host: string, job: Job, older: seq<Job>)
    requires IsRun(s, steps) && steps != [] && steps[0] == TakeJob(host)
    requires host in s.hosts && IsNext(s.hosts[host].queue, job, older)
    ensures TakesFirst(s, steps, host, job, older)
  {
    hide IsNext, Enabled, Apply;
    RunNone(s);
    assert steps[..0] == [];
    assert IsNextAt(s, steps[..0], host, job, older);
  }

  lemma PopIsTake(s: System, step: Step, host: string)
    ensures var calls := CallsOf(s, step, host);
            calls != [] && calls[0].Pop? ==> step == TakeJob(host)
  {
    hide JobFor;
  }

  lemma NotAdded(s: System, step: Step, host: string)
    requires KeyChain(s) && host in s.hosts
    ensures !Adds(s, step, host)
  {
  }

  lemma StepWaits(s: System, step: Step, host: string, job: Job, older: seq<Job>)
    requires KeyChain(s) && Enabled(s, step) && host in s.hosts && host in Apply(s, step).hosts
    requires Waits(s.hosts[host].queue, job, older)
    ensures Waits(Apply(s, step).hosts[host].queue, job, older)
         || (step == TakeJob(host) && IsNext(s.hosts[host].queue, job, older))
  {
    NotAdded(s, step, host);
    PopIsTake(s, step, host);
    StepQueue(s, step, host);
    hide KeyChain, Enabled, Apply, Waits, IsNext, Called, CallsOf, Adds;
    var calls := CallsOf(s, step, host);
    if calls != [] {
      WaitsOn(s.hosts[host].queue, calls[0], job, older);
    }
  }

  lemma {:induction false} WaitsOrTaken(s: System, steps: seq<Step>, host: string, job: Job, older: seq<Job>)
    requires KeyChain(s) && IsRun(s, steps) && host in s.hosts && host in After(s, steps).hosts
    requires Waits(s.hosts[host].queue, job, older)
    requires forall step <- steps :: !(step.AddConfiguration? && step.host == host)
    ensures Waits(After(s, steps).hosts[host].queue, job, older) || TakesFirst(s, steps, host, job, older)
    decreases |steps|
  {
    if steps != [] {
      var t := Apply(s, steps[0]);
      StepKeys(s, steps[0]);
      if host !in t.hosts {
        StepGone(s, steps[0], host);
        RunAbsent(t, steps[1..], host);
        assert false;
      }
      hide KeyChain, Enabled, Apply, Waits, IsNext, TakesFirst;
      StepWaits(s, steps[0], host, job, older);
      if Waits(t.hosts[host].queue, job, older) {
        WaitsOrTaken(t, steps[1..], host, job, older);
        if TakesFirst(t, steps[1..], host, job, older) {
          TakesLater(s, steps, host, job, older);
        }
      } else {
        TakesNow(s, steps, host, job, older);
      }
    }
  }

  lemma StepGone(s: System, step: Step, host: string)
    requires KeyChain(s) && Enabled(s, step) && host in s.hosts && host !in Apply(s, step).hosts
    ensures Absent(Apply(s, step), host)
  {
    if IsMembership(step) {
      MembershipGone(s, step, host);
    } else {
      hide KeyChain, Enabled, Apply;
      UrlsKept(s, step);
    }
  }

  lemma MembershipGone(s: System, step: Step, host: string)
    requires Enabled(s, step) && IsMembership(step) && host in s.hosts && host !in Apply(s, step).hosts
    ensures Absent(Apply(s, step), host)
  {
    assert step.EraseController?;
  }

  /**
    An operation overtakes whatever waits when the controller is asked for it: from then on, for as long
    as the host stays, it is queued ahead of all those jobs, or the worker took it while they all waited.
  */
  lemma OperationGoesFirst(a: seq<Step>, host: string, id: nat, b: seq<Step>)
    requires IsRun(START, a + [Operate(host, id)] + b)
    requires host in After(START, a + [Operate(host, id)] + b).hosts
    requires forall step <- b :: !(step.AddConfiguration? && step.host == host)
    ensures IsRun(START, a) && host in After(START, a).hosts && IsRun(START, a + [Operate(host, id)])
    ensures var older, s := After(START, a).hosts[host].queue.jobs, After(START, a + [Operate(host, id)]);
            && IsRun(s, b)
            && (|| Waits(After(START, a + [Operate(host, id)] + b).hosts[host].queue, Operation(id), older)
                || TakesFirst(s, b, host, Operation(id), older))
  {
    RunConcat(START, a + [Operate(host, id)], b);
    RunConcat(START, a, [Operate(host, id)]);
    RunKeys(START, a);
    RunKeys(START, a + [Operate(host, id)]);
    var before := After(START, a);
    OperateWaits(before, host, id);
    var s := After(START, a + [Operate(host, id)]);
    assert s == Apply(before, Operate(host, id));
    hide IsRun, After, Enabled, Apply, KeyChain, Waits, TakesFirst;
    WaitsOrTaken(s, b, host, Operation(id), before.hosts[host].queue.jobs);
  }

  lemma OperateWaits(s: System, host: string, id: nat)
    requires KeyChain(s) && Enabled(s, Operate(host, id))
    ensures host in s.hosts
    ensures var t := Apply(s, Operate(host, id));
            host in t.hosts && Waits(t.hosts[host].queue, Operation(id), s.hosts[host].queue.jobs)
  {
    var q := Apply(s, Operate(host, id)).hosts[host].queue;
    assert q.jobs[0..] == [Operation(id)] + s.hosts[host].queue.jobs;
  }

  /**
    The trace form: a periodic job that a worker takes after the controller was asked for an operation
    is taken after that operation, and so is every job that was queued when it was asked for.
  */
  lemma OperationTakenBeforePeriodic(a: seq<Step>, host: string, id: nat, b: seq<Step>)
    requires IsRun(START, a + [Operate(host, id)] + b)
    requires Enabled(After(START, a + [Operate(host, id)] + b), TakeJob(host))
    requires var q := After(START, a + [Operate(host, id)] + b).hosts[host].queue;
             !q.closed && q.jobs[0].Periodic?
    requires forall step <- b :: !(step.AddConfiguration? && step.host == host)
    ensures IsRun(START, a) && host in After(START, a).hosts && IsRun(START, a + [Operate(host, id)])
    ensures IsRun(After(START, a + [Operate(host, id)]), b)
    ensures TakesFirst(After(START, a + [Operate(host, id)]), b, host, Operation(id),
                       After(START, a).hosts[host].queue.jobs)
  {
    OperationGoesFirst(a, host, id, b);
    OperationsRunFirst(a + [Operate(host, id)] + b, host);
    var older := After(START, a).hosts[host].queue.jobs;
    NoneWaits(After(START, a + [Operate(host, id)] + b).hosts[host].queue, id, older);
  }

  lemma NoneWaits(q: QueueState<Job>, id: nat, older: seq<Job>)
    requires forall j <- q.jobs :: !j.Operation?
    ensures !Waits(q, Operation(id), older)
  {
    forall at | 0 <= at < |q.jobs| ensures !([Operation(id)] + older <= q.jobs[at..]) {
      assert q.jobs[at..][0] == q.jobs[at];
      assert q.jobs[at] in q.jobs;
      assert ([Operation(id)] + older)[0] == Operation(id);
    }
  }
}
