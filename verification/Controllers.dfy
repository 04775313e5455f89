/**
  The controller's public methods, in place (libui/src/controller.cc and libui/src/configuration.cc).
  Each one either rejects its call and changes nothing, or carries out a run of `Protocol` steps; the
  invariant of those runs is what keeps its lookups and assertions from failing.
*/
module Controllers {
  import opened Wrappers
  import opened JobQueues
  import opened Scheduling
  import opened SchedulerContexts
  import opened Protocol
  import opened ProtocolKeys
  import opened ProtocolTheorems

  class Configuration {
    var intervals: Intervals
    var hosts: map<string, HostSettings>

    constructor ()
      ensures intervals == DEFAULT_INTERVALS && hosts == map[]
    {
      intervals, hosts := DEFAULT_INTERVALS, map[];
    }

    method SetInterval(kind: Kind, interval: int)
      modifies this
      ensures intervals == old(intervals)[kind := interval] && hosts == old(hosts)
    {
      intervals := intervals[kind := interval];
    }

    method SetActiveOnlyTasks(host: string, on: bool)
      requires host in hosts
      modifies this
      ensures intervals == old(intervals) && hosts == old(hosts)[host := old(hosts)[host].(activeOnlyTasks := on)]
    {
      hosts := hosts[host := hosts[host].(activeOnlyTasks := on)];
    }

    method SetSchedulePeriodicTasks(host: string, on: bool)
      requires host in hosts
      modifies this
      ensures intervals == old(intervals) && hosts == old(hosts)[host := old(hosts)[host].(schedulePeriodicTasks := on)]
    {
      hosts := hosts[host := hosts[host].(schedulePeriodicTasks := on)];
    }

    method AddHost(host: string)
      requires host !in hosts
      modifies this
      ensures intervals == old(intervals) && hosts == old(hosts)[host := HostSettings(false, false)]
    {
      hosts := hosts[host := HostSettings(false, false)];
    }

    method RemoveHost(host: string)
      requires host in hosts
      modifies this
      ensures intervals == old(intervals) && hosts == old(hosts) - {host}
    {
      hosts := hosts - {host};
    }
  }

  /** The exceptions a call is answered with. */
  datatype Rejection = MissingArgument | IsShutDown | KnownHost | UnknownHost

  /** The checks that the calls on a host begin with. */
  function Refusal(s: System, host: string): Option<Rejection> {
    if host == "" then Some(MissingArgument)
    else if s.stopping then Some(IsShutDown)
    else if host !in s.hosts then Some(UnknownHost)
    else None
  }

  function AddRefusal(s: System, host: string, url: string): Option<Rejection> {
    if host == "" || url == "" then Some(MissingArgument)
    else if s.stopping then Some(IsShutDown)
    else if host in s.hosts then Some(KnownHost)
    else None
  }

  /** Which call is answered with what: a host that the controller has is refused only after the shutdown. */
  lemma RefusedIff(s: System, host: string)
    ensures Refusal(s, host) == Some(MissingArgument) <==> host == ""
    ensures Refusal(s, host) == Some(IsShutDown) <==> host != "" && s.stopping
    ensures Refusal(s, host) == Some(UnknownHost) <==> host != "" && !s.stopping && host !in s.hosts
    ensures Refusal(s, host).None? <==> host != "" && !s.stopping && host in s.hosts
  {
  }

  lemma AddRefusedIff(s: System, host: string, url: string)
    ensures AddRefusal(s, host, url) == Some(MissingArgument) <==> host == "" || url == ""
    ensures AddRefusal(s, host, url) == Some(IsShutDown) <==> host != "" && url != "" && s.stopping
    ensures AddRefusal(s, host, url) == Some(KnownHost) <==> host != "" && url != "" && !s.stopping && host in s.hosts
    ensures AddRefusal(s, host, url).None? <==> host != "" && url != "" && !s.stopping && host !in s.hosts
  {
  }

  /** The controller is between two calls, and no thread has failed. */
  ghost predicate Idle(s: System) {
    KeyChain(s) && s.phase == Ready && !s.failed
  }

  /** The task of the host is due at once, if it is not pending, and no other task has changed. */
  predicate IsRescheduled(s: System, t: System, host: string, kind: Kind) {
    && host in s.context.tasks
    && t.context == s.context.(tasks :=
         s.context.tasks[host := s.context.tasks[host][kind := Task(s.context.tasks[host][kind].pending, Never)]])
  }

  class Controller {
    const configuration: Configuration
    const scheduler: SchedulerContext
    var hosts: map<string, Host>
    var cached: Intervals
    var phase: Phase
    var stopping: bool
    var clock: int
    var failed: bool

    constructor ()
      ensures State() == START && Idle(State())
      ensures fresh(configuration) && fresh(scheduler)
    {
      configuration := new Configuration();
      scheduler := new SchedulerContext();
      hosts, cached, phase, stopping, clock, failed := map[], DEFAULT_INTERVALS, Ready, false, 0, false;
    }

    function State(): System
      reads this, configuration, scheduler
    {
      System(configuration.hosts, configuration.intervals, cached, scheduler.Value(), hosts, phase, stopping, clock,
             failed)
    }

    method AddHost(host: string, url: string) returns (r: Option<Rejection>)
      requires Idle(State())
      modifies this`hosts, configuration, scheduler
      ensures r == AddRefusal(old(State()), host, url)
      ensures if r.Some? then State() == old(State()) else Leads(old(State()), Adding(host, url), State())
      ensures r.None? ==>
                && configuration.hosts == old(configuration.hosts)[host := HostSettings(false, false)]
                && hosts == old(hosts)[host := Host(url, QueueState([], false), Unconnected, [], [])]
                && host in scheduler.tasks && host in scheduler.cursors
                && (forall k: Kind :: scheduler.tasks[host][k] == Task(false, Never))
                && scheduler.cursors[host] == Cursor(0, 0)
      ensures Idle(State())
    {
      r := AddRefusal(State(), host, url);
      if r.None? {
        AddRun(State(), host, url);
        configuration.AddHost(host);
        hosts := hosts[host := Host(url, QueueState([], false), Unconnected, [], [])];
        scheduler.AddHost(host);
      }
    }

    /**
      The whole call, when no other thread takes a step in between: it ends with the host gone, or, when
      the job in the worker's hands cannot be reported any more, with the exception that ends it all.
    */
    method RemoveHost(host: string, outcome: Outcome) returns (r: Option<Rejection>, ghost steps: seq<Step>)
      requires Idle(State())
      modifies this`hosts, this`phase, this`failed, configuration, scheduler
      ensures r == Refusal(old(State()), host)
      ensures r.Some? ==> State() == old(State()) && Idle(State())
      ensures r.None? ==> Leads(old(State()), steps, State()) && (failed <==> IsUnreportable(old(State()), host))
      ensures r.None? && !failed ==> Idle(State()) && hosts == old(hosts) - {host}
    {
      hide Leads, KeyChain;
      r, steps := Refusal(State(), host), [];
      if r.None? {
        steps := RemoveAndJoin(host, outcome);
      }
    }

    /** The scheduler forgets the host first, and its queue is closed second. */
    method BeginRemoval(host: string)
      requires Idle(State()) && host in hosts
      modifies this`hosts, this`phase, scheduler
      ensures Leads(old(State()), [RemoveTasks(host), CloseQueue], State())
      ensures KeyChain(State()) && phase == Closed(host)
      ensures hosts == old(hosts)[host := old(hosts)[host].(queue := old(hosts)[host].queue.(closed := true))]
      ensures scheduler.Value() == WithoutHost(old(scheduler.Value()), host)
    {
      RemoveRun(State(), host);
      scheduler.RemoveHost(host);
      hosts := hosts[host := hosts[host].(queue := hosts[host].queue.(closed := true))];
      phase := Closed(host);
    }

    /** The worker runs the job in hand; its calls end with `outcome`. */
    method RunJob(host: string, outcome: Outcome)
      requires Enabled(State(), Execute(host, outcome))
      modifies this`hosts
      ensures State() == Apply(old(State()), Execute(host, outcome))
    {
      hosts := hosts[host := Executed(hosts[host], hosts[host].worker.job, outcome)];
    }

    /** The worker's report of a periodic job, which throws when the scheduler does not know the client's host. */
    method Report(host: string)
      requires KeyChain(State()) && Enabled(State(), PostExecute(host))
      modifies this`hosts, this`failed, scheduler
      ensures State() == Apply(old(State()), PostExecute(host))
    {
      var h := hosts[host];
      hosts := hosts[host := h.(worker := Waiting)];
      if h.worker.job.Periodic? {
        var ok := scheduler.HandlePostExecution(h.url, h.worker.job, clock);
        failed := !ok;
      }
    }

    /** The worker finds its queue closed and ends. */
    method End(host: string)
      requires Enabled(State(), TakeJob(host)) && hosts[host].queue.closed
      modifies this`hosts
      ensures State() == Apply(old(State()), TakeJob(host))
    {
      hosts := hosts[host := hosts[host].(worker := Exited)];
    }

    /**
      The wait for the worker of a host that is being removed: it finishes the job in hand, whose calls
      end with `outcome`, reports it, and, unless the report throws, ends at the closed queue without
      taking another job.
    */
    method JoinWorker(outcome: Outcome) returns (ghost steps: seq<Step>)
      requires KeyChain(State()) && !failed && phase.Closed?
      modifies this`hosts, this`failed, scheduler
      ensures Leads(old(State()), steps, State()) && KeyChain(State())
      ensures hosts.Keys == old(hosts).Keys && forall n <- hosts.Keys :: n != phase.host ==> hosts[n] == old(hosts)[n]
      ensures failed <==> Throws(old(State()), phase.host)
      ensures !failed ==> hosts[phase.host].worker in {Unconnected, Exited}
      ensures |steps| <= 3
      ensures forall step <- steps ::
                step in {Execute(phase.host, outcome), PostExecute(phase.host), TakeJob(phase.host)}
    {
      hide Leads, KeyChain, Apply, Enabled, Executed;
      var host := phase.host;
      ghost var start := State();
      Nothing(start);
      steps := [];
      ClosedIs(start);
      assert Throws(start, host) ==> HasPeriodic(hosts[host]);
      if hosts[host].worker.Holding? {
        RunStep(State(), host, outcome);
        LeadsOn(start, steps, State(), Execute(host, outcome));
        RunJob(host, outcome);
        steps := steps + [Execute(host, outcome)];
      }
      if hosts[host].worker.Ran? {
        ReportStep(State(), host);
        LeadsOn(start, steps, State(), PostExecute(host));
        Report(host);
        steps := steps + [PostExecute(host)];
      }
      if !failed && hosts[host].worker.Waiting? {
        EndStep(State(), host);
        LeadsOn(start, steps, State(), TakeJob(host));
        End(host);
        steps := steps + [TakeJob(host)];
      }
    }

    /** What remains to be done when the worker has been joined. */
    method FinishRemoval()
      requires KeyChain(State()) && !failed
      requires phase.Closed? && hosts[phase.host].worker in {Unconnected, Exited}
      modifies this`hosts, this`phase, configuration
      ensures Leads(old(State()), [EraseController, RemoveConfiguration], State()) && Idle(State())
      ensures hosts == old(hosts) - {old(phase).host}
    {
      FinishRun(State());
      hosts := hosts - {phase.host};
      configuration.RemoveHost(phase.host);
      phase := Ready;
    }

    /**
      The scheduler is stopped and every host removed, each with the wait for its worker; whatever the
      call in flight of each host comes to, no step of it fails and nothing is left.
    */
    method Shutdown(outcomes: string -> Outcome) returns (ghost steps: seq<Step>)
      requires Idle(State())
      modifies this`hosts, this`phase, this`stopping, this`failed, configuration, scheduler
      ensures Leads(old(State()), steps, State()) && Idle(State()) && stopping
      ensures hosts == map[] && configuration.hosts == map[] && scheduler.Value() == Context(map[], map[], true)
    {
      hide Leads, KeyChain;
      Stop();
      steps := [StopController];
      while hosts != map[]
        invariant Idle(State()) && stopping && Leads(old(State()), steps, State())
        decreases |hosts.Keys|
      {
        var host :| host in hosts;
        ghost var before := State();
        ghost var removal := RemoveAndJoin(host, outcomes(host));
        StoppedAreReported(before, host);
        LeadsConcat(old(State()), steps, before, removal, State());
        steps := steps + removal;
      }
      NothingLeft(State());
    }

    method Stop()
      requires Idle(State())
      modifies this`stopping, scheduler
      ensures Leads(old(State()), [StopController], State()) && Idle(State()) && stopping
    {
      OneStep(State(), StopController);
      stopping := true;
      scheduler.TriggerShutdown();
    }

    method RemoveAndJoin(host: string, outcome: Outcome) returns (ghost steps: seq<Step>)
      requires Idle(State()) && host in hosts
      modifies this`hosts, this`phase, this`failed, configuration, scheduler
      ensures Leads(old(State()), steps, State()) && (failed <==> IsUnreportable(old(State()), host))
      ensures !failed ==> Idle(State()) && hosts == old(hosts) - {host}
    {
      hide Leads, KeyChain;
      ghost var start := State();
      BeginRemoval(host);
      ghost var closed := State();
      UnreportableThrows(start, closed, host);
      ghost var joined := JoinWorker(outcome);
      LeadsConcat(start, [RemoveTasks(host), CloseQueue], closed, joined, State());
      steps := [RemoveTasks(host), CloseQueue] + joined;
      if !failed {
        ghost var ended := State();
        FinishRemoval();
        LeadsConcat(start, steps, ended, [EraseController, RemoveConfiguration], State());
        steps := steps + [EraseController, RemoveConfiguration];
        assert hosts == start.hosts - {host};
      }
    }

    method SchedulePeriodicTasks(host: string, on: bool) returns (r: Option<Rejection>)
      requires Idle(State())
      modifies configuration
      ensures r == Refusal(old(State()), host)
      ensures if r.Some? then State() == old(State()) else Leads(old(State()), [SetScheduling(host, on)], State())
      ensures r.None? ==>
                && host in old(configuration.hosts)
                && configuration.hosts
                   == old(configuration.hosts)[host := old(configuration.hosts)[host].(schedulePeriodicTasks := on)]
      ensures Idle(State())
    {
      r := Refusal(State(), host);
      if r.None? {
        OneStep(State(), SetScheduling(host, on));
        configuration.SetSchedulePeriodicTasks(host, on);
      }
    }

    method ActiveOnlyTasks(host: string, on: bool) returns (r: Option<Rejection>)
      requires Idle(State())
      modifies configuration, scheduler
      ensures r == Refusal(old(State()), host)
      ensures if r.Some? then State() == old(State()) else Leads(old(State()), [SetActiveOnly(host, on)], State())
      ensures r.None? ==>
                && host in old(configuration.hosts) && IsRescheduled(old(State()), State(), host, GET_TASKS)
                && configuration.hosts
                   == old(configuration.hosts)[host := old(configuration.hosts)[host].(activeOnlyTasks := on)]
      ensures Idle(State())
    {
      r := Refusal(State(), host);
      if r.None? {
        OneStep(State(), SetActiveOnly(host, on));
        configuration.SetActiveOnlyTasks(host, on);
        var ok := scheduler.RescheduleNow(host, GET_TASKS);
        assert ok;
      }
    }

    method RescheduleNow(host: string, kind: Kind) returns (r: Option<Rejection>)
      requires Idle(State())
      modifies scheduler
      ensures r == Refusal(old(State()), host)
      ensures if r.Some? then State() == old(State()) else Leads(old(State()), [Reschedule(host, kind)], State())
      ensures r.None? ==> IsRescheduled(old(State()), State(), host, kind)
      ensures Idle(State())
    {
      r := Refusal(State(), host);
      if r.None? {
        OneStep(State(), Reschedule(host, kind));
        var ok := scheduler.RescheduleNow(host, kind);
        assert ok;
      }
    }

    /** An operation is pushed before its periodic task is made due, so the refresh cannot overtake it. */
    method Operation(host: string, id: nat, refresh: Kind) returns (r: Option<Rejection>)
      requires Idle(State())
      modifies this`hosts, scheduler
      ensures r == Refusal(old(State()), host)
      ensures if r.Some? then State() == old(State())
              else Leads(old(State()), [Operate(host, id), Reschedule(host, refresh)], State())
      ensures r.None? ==>
                && host in old(hosts) && IsRescheduled(old(State()), State(), host, refresh)
                && var queue := QueueState([Job.Operation(id)] + old(hosts)[host].queue.jobs, false);
                   hosts == old(hosts)[host := old(hosts)[host].(queue := queue)]
      ensures Idle(State())
    {
      r := Refusal(State(), host);
      if r.None? {
        OperateRun(State(), host, id, refresh);
        hosts := hosts[host := hosts[host].(queue := Push(hosts[host].queue, Job.Operation(id), true))];
        var ok := scheduler.RescheduleNow(host, refresh);
        assert ok;
      }
    }
  }

  // ----- the runs -----

  predicate HasPeriodic(h: Host) {
    (h.worker.Holding? || h.worker.Ran?) && h.worker.job.Periodic?
  }

  /** The report of the job in the worker's hands will throw. */
  predicate Throws(s: System, host: string)
    requires host in s.hosts
  {
    HasPeriodic(s.hosts[host]) && !s.context.shutdown && s.hosts[host].url !in s.context.tasks
  }

  /** Once the host is being removed, the job in its worker's hands can no longer be reported. */
  predicate IsUnreportable(s: System, host: string)
    requires host in s.hosts
  {
    && HasPeriodic(s.hosts[host]) && !s.stopping
    && (s.hosts[host].url == host || s.hosts[host].url !in s.hosts)
  }

  lemma UnreportableThrows(s: System, t: System, host: string)
    requires Idle(s) && host in s.hosts && host in t.hosts && t.stopping == s.stopping
    requires t.context == WithoutHost(s.context, host)
    requires t.hosts[host].worker == s.hosts[host].worker && t.hosts[host].url == s.hosts[host].url
    ensures Throws(t, host) <==> IsUnreportable(s, host)
  {
  }

  lemma StoppedAreReported(s: System, host: string)
    requires host in s.hosts && s.stopping
    ensures !IsUnreportable(s, host)
  {
  }

  lemma ClosedIs(s: System)
    requires KeyChain(s) && s.phase.Closed?
    ensures s.phase.host in s.hosts && s.hosts[s.phase.host].queue.closed
  {
  }

  ghost predicate OthersKept(s: System, t: System, host: string) {
    && t.phase == s.phase && t.hosts.Keys == s.hosts.Keys
    && forall n <- s.hosts.Keys :: n != host ==> t.hosts[n] == s.hosts[n]
  }

  lemma RunStep(s: System, host: string, outcome: Outcome)
    requires KeyChain(s) && !s.failed && host in s.hosts && s.hosts[host].worker.Holding?
    ensures Enabled(s, Execute(host, outcome))
    ensures var t := Apply(s, Execute(host, outcome));
            && KeyChain(t) && !t.failed && OthersKept(s, t, host)
            && t.hosts[host].worker.Ran? && t.hosts[host].queue == s.hosts[host].queue
            && (Throws(t, host) <==> Throws(s, host))
  {
    hide KeyChain;
    ExecutedRan(s.hosts[host], s.hosts[host].worker.job, outcome);
    assert Enabled(s, Execute(host, outcome));
    StepKeys(s, Execute(host, outcome));
    hide Executed;
  }

  lemma ExecutedRan(h: Host, job: Job, outcome: Outcome)
    ensures var r := Executed(h, job, outcome);
            && r.worker.Ran? && r.queue == h.queue && r.url == h.url
            && (r.worker.job.Periodic? <==> job.Periodic?)
  {
  }

  lemma ReportedHosts(s: System, host: string)
    requires Enabled(s, PostExecute(host))
    ensures var t := Apply(s, PostExecute(host));
            && OthersKept(s, t, host)
            && t.hosts[host].worker == Waiting && t.hosts[host].queue == s.hosts[host].queue
  {
    hide PostExecuted;
  }

  lemma ReportStep(s: System, host: string)
    requires KeyChain(s) && !s.failed && host in s.hosts && s.hosts[host].worker.Ran?
    ensures Enabled(s, PostExecute(host))
    ensures var t := Apply(s, PostExecute(host));
            && KeyChain(t) && OthersKept(s, t, host)
            && t.hosts[host].worker == Waiting && t.hosts[host].queue == s.hosts[host].queue
            && (t.failed <==> Throws(s, host))
  {
    assert Enabled(s, PostExecute(host));
    hide KeyChain, Apply, Enabled, OthersKept;
    StepKeys(s, PostExecute(host));
    ReportFailsIff(s, host);
    ReportedHosts(s, host);
  }

  lemma EndStep(s: System, host: string)
    requires KeyChain(s) && !s.failed && host in s.hosts && s.hosts[host].worker.Waiting? && s.hosts[host].queue.closed
    ensures Enabled(s, TakeJob(host))
    ensures var t := Apply(s, TakeJob(host));
            KeyChain(t) && !t.failed && OthersKept(s, t, host) && t.hosts[host].worker == Exited
  {
    StepKeys(s, TakeJob(host));
    hide KeyChain;
  }

  lemma Nothing(s: System)
    ensures Leads(s, [], s)
  {
    RunNone(s);
  }

  lemma NothingLeft(s: System)
    requires Idle(s) && s.hosts == map[]
    ensures s.config == map[] && s.context == Context(map[], map[], s.stopping)
  {
    assert s.config.Keys == {} && s.context.tasks.Keys == {} && s.context.cursors.Keys == {};
  }

  lemma OneStep(s: System, step: Step)
    requires KeyChain(s) && Enabled(s, step)
    ensures Leads(s, [step], Apply(s, step)) && KeyChain(Apply(s, step))
  {
    hide KeyChain, Enabled, Apply;
    RunNone(Apply(s, step));
    RunCons(s, step, []);
    assert [step] + [] == [step];
    StepKeys(s, step);
  }

  lemma TwoSteps(s: System, a: Step, b: Step)
    requires KeyChain(s) && Enabled(s, a) && Enabled(Apply(s, a), b)
    ensures Leads(s, [a, b], Apply(Apply(s, a), b)) && KeyChain(Apply(Apply(s, a), b))
  {
    hide KeyChain, Enabled, Apply;
    StepKeys(s, a);
    OneStep(Apply(s, a), b);
    RunCons(s, a, [b]);
    assert [a] + [b] == [a, b];
  }

  lemma AddRun(s: System, host: string, url: string)
    requires Idle(s) && AddRefusal(s, host, url).None?
    ensures var t := s.(config := s.config[host := HostSettings(false, false)],
                        hosts := s.hosts[host := Host(url, QueueState([], false), Unconnected, [], [])],
                        context := WithHost(s.context, host));
            Leads(s, Adding(host, url), t) && Idle(t)
  {
    var first := AddConfiguration(host, url);
    var s1 := Apply(s, first);
    var s2 := Apply(s1, AddController);
    StepKeys(s, first);
    TwoSteps(s1, AddController, AddTasks);
    RunCons(s, first, [AddController, AddTasks]);
    assert [first] + [AddController, AddTasks] == Adding(host, url);
  }

  lemma RemoveRun(s: System, host: string)
    requires Idle(s) && host in s.hosts
    ensures var t := s.(context := WithoutHost(s.context, host),
                        hosts := s.hosts[host := s.hosts[host].(queue := s.hosts[host].queue.(closed := true))],
                        phase := Closed(host));
            Leads(s, [RemoveTasks(host), CloseQueue], t) && KeyChain(t)
  {
    TwoSteps(s, RemoveTasks(host), CloseQueue);
  }

  lemma FinishRun(s: System)
    requires KeyChain(s) && !s.failed && s.phase.Closed? && s.hosts[s.phase.host].worker in {Unconnected, Exited}
    ensures s.phase.host in s.config
    ensures var t := s.(hosts := s.hosts - {s.phase.host}, config := s.config - {s.phase.host}, phase := Ready);
            Leads(s, [EraseController, RemoveConfiguration], t) && Idle(t)
  {
    TwoSteps(s, EraseController, RemoveConfiguration);
  }

  lemma OperateIs(s: System, host: string, id: nat)
    requires Idle(s) && Refusal(s, host).None?
    ensures Enabled(s, Operate(host, id))
    ensures Apply(s, Operate(host, id))
         == s.(hosts := s.hosts[host := s.hosts[host].(queue := Push(s.hosts[host].queue, Operation(id), true))])
  {
    hide Push;
  }

  lemma RescheduleIs(s: System, host: string, kind: Kind)
    requires Idle(s) && Refusal(s, host).None?
    ensures Enabled(s, Reschedule(host, kind))
    ensures Rescheduled(s.context, host, kind).Some?
    ensures Apply(s, Reschedule(host, kind)) == s.(context := Rescheduled(s.context, host, kind).value)
  {
    hide WithTask;
  }

  lemma OperateRun(s: System, host: string, id: nat, refresh: Kind)
    requires Idle(s) && Refusal(s, host).None?
    ensures var r := Rescheduled(s.context, host, refresh);
            r.Some? &&
            var queue := Push(s.hosts[host].queue, Operation(id), true);
            var t := s.(hosts := s.hosts[host := s.hosts[host].(queue := queue)],
                        context := r.value);
            Leads(s, [Operate(host, id), Reschedule(host, refresh)], t) && Idle(t)
  {
    hide KeyChain, Apply, Enabled, Leads, Rescheduled, Push;
    OperateIs(s, host, id);
    var between := Apply(s, Operate(host, id));
    StepKeys(s, Operate(host, id));
    RescheduleIs(between, host, refresh);
    TwoSteps(s, Operate(host, id), Reschedule(host, refresh));
  }
}
