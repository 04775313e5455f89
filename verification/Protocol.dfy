/**
  The controller, the periodic scheduler, the hosts' queues and workers, and their clients, as one
  system that moves by atomic steps: one step per critical section (libui/src/controller.cc,
  periodic_tasks_scheduler.cc, host_controller.cc, jobs.cc, job_queue.cc).

  A tick of the scheduler is a sequence of `Schedule` steps, one per scheduled task, because workers
  may pop between two of its pushes.
*/
module Protocol {
  import opened JobQueues
  import opened Scheduling

  datatype Message = Message(seqno: int, body: string)

  /** What a host's worker thread is doing; `Ran` is between `execute` and the post-execution handler. */
  datatype Worker = Unconnected | Waiting | Holding(job: Job) | Ran(job: Job) | Exited

  /**
    A host controller with its client. `log` is the client's message log; `delivered` records the
    messages handed to the handlers, the concatenation of all batches since the host was added.
  */
  datatype Host = Host(url: string, queue: QueueState<Job>, worker: Worker,
                       log: seq<Message>, delivered: seq<Message>)

  /** How far the controller is in adding or removing a host; it does one such thing at a time, under its mutex. */
  datatype Phase =
    | Ready
    | Configured(host: string, url: string)   // adding: the configuration knows the host
    | Controlled(host: string)                // adding: the host controller exists
    | Unscheduled(host: string)               // removing: the scheduler has dropped the host
    | Closed(host: string)                    // removing: the queue is shut down
    | Erased(host: string)                    // removing: the host controller is gone

  datatype System = System(
    config: map<string, HostSettings>,
    intervals: Intervals,
    cached: Intervals,      // the scheduler's copy of the intervals
    context: Context,
    hosts: map<string, Host>,
    phase: Phase,
    stopping: bool,         // Controller::Impl::shutdown_
    clock: int,
    failed: bool)           // an exception has left a thread, which ends the process

  datatype Outcome = RpcFailed | Replied(noticeSeqnos: seq<int>)

  datatype Step =
    | AddConfiguration(host: string, url: string)
    | AddController
    | AddTasks
    | Connect(host: string)
    | RemoveTasks(host: string)
    | CloseQueue
    | EraseController
    | RemoveConfiguration
    | StopController
    | SetScheduling(host: string, on: bool)
    | SetActiveOnly(host: string, on: bool)
    | SetInterval(kind: Kind, interval: int)
    | RefreshCache
    | Wait(time: int)
    | Schedule(host: string, kind: Kind, now: int)
    | Reschedule(host: string, kind: Kind)
    | Operate(host: string, id: nat)
    | Authorize(host: string)
    | TakeJob(host: string)
    | Execute(host: string, outcome: Outcome)
    | PostExecute(host: string)
    | ClientLogs(host: string, message: Message)

  const START := System(map[], DEFAULT_INTERVALS, DEFAULT_INTERVALS, Context(map[], map[], false),
                        map[], Ready, false, 0, false)

  // ----- the client and the job it runs -----

  function LastSeqno(ms: seq<Message>): int {
    if ms == [] then 0 else ms[|ms| - 1].seqno
  }

  /** The reply to get_messages(n): the entries above n, in order. */
  function Above(log: seq<Message>, n: int): seq<Message> {
    if log == [] then []
    else (if log[0].seqno > n then [log[0]] else []) + Above(log[1..], n)
  }

  /** PeriodicJob::execute: what the handlers are given is appended to `delivered`, and the payload's seqno moves on. */
  function Executed(h: Host, job: Job, outcome: Outcome): Host {
    if job.Periodic? && job.kind == GET_MESSAGES && job.payload.Seqno? && outcome.Replied? then
      var batch := Above(h.log, job.payload.seqno);
      var seqno := if batch == [] then job.payload.seqno else LastSeqno(batch);
      h.(worker := Ran(Periodic(GET_MESSAGES, Seqno(seqno))), delivered := h.delivered + batch)
    else if job.Periodic? && job.kind == GET_NOTICES && outcome.Replied? && outcome.noticeSeqnos != [] then
      h.(worker := Ran(Periodic(GET_NOTICES, Seqno(outcome.noticeSeqnos[|outcome.noticeSeqnos| - 1]))))
    else
      h.(worker := Ran(job))
  }

  // ----- steps -----

  predicate Enabled(s: System, step: Step) {
    && !s.failed
    && match step
       case AddConfiguration(host, url) => s.phase == Ready && !s.stopping && host !in s.hosts
       case AddController => s.phase.Configured?
       case AddTasks => s.phase.Controlled?
       case Connect(host) => host in s.hosts && s.hosts[host].worker == Unconnected
       case RemoveTasks(host) => s.phase == Ready && host in s.hosts
       case CloseQueue => s.phase.Unscheduled? && s.phase.host in s.hosts
       case EraseController =>
         s.phase.Closed? && s.phase.host in s.hosts && s.hosts[s.phase.host].worker in {Unconnected, Exited}
       case RemoveConfiguration => s.phase.Erased?
       case StopController => s.phase == Ready
       case SetScheduling(host, on) => s.phase == Ready && !s.stopping && host in s.hosts
       case SetActiveOnly(host, on) => s.phase == Ready && !s.stopping && host in s.hosts
       case SetInterval(kind, interval) => true
       case RefreshCache => true
       case Wait(time) => s.clock <= time
       case Schedule(host, kind, now) =>
         && !s.context.shutdown
         && now <= s.clock
         && host in s.context.tasks
         && (host in s.config ==> s.config[host].schedulePeriodicTasks)
         && Due(s.context.tasks[host][kind], s.cached[kind], now)
       case Reschedule(host, kind) => s.phase == Ready && !s.stopping && host in s.hosts
       case Operate(host, id) => s.phase == Ready && !s.stopping && host in s.hosts
       case Authorize(host) => s.phase == Ready && !s.stopping && host in s.hosts
       case TakeJob(host) => host in s.hosts && s.hosts[host].worker == Waiting && PopReady(s.hosts[host].queue)
       case Execute(host, outcome) => host in s.hosts && s.hosts[host].worker.Holding?
       case PostExecute(host) => host in s.hosts && s.hosts[host].worker.Ran?
       case ClientLogs(host, message) =>
         host in s.hosts && 0 < message.seqno && LastSeqno(s.hosts[host].log) < message.seqno
  }

  function Fail(s: System): System {
    s.(failed := true)
  }

  function WithHostAt(s: System, host: string, h: Host): System {
    s.(hosts := s.hosts[host := h])
  }

  function Pushed(s: System, host: string, job: Job, front: bool): System {
    if host !in s.hosts then Fail(s)
    else WithHostAt(s, host, s.hosts[host].(queue := Push(s.hosts[host].queue, job, front)))
  }

  /** `schedule_` and the callback it invokes; a lookup that finds nothing throws in the scheduler thread. */
  function ScheduledStep(s: System, host: string, kind: Kind): System {
    if host !in s.config || host !in s.context.tasks || host !in s.context.cursors then Fail(s)
    else
      var job := JobFor(kind, s.context.cursors[host], s.config[host].activeOnlyTasks);
      Pushed(s.(context := WithPending(s.context, host, kind)), host, job, false)
  }

  function RescheduledStep(s: System, host: string, kind: Kind): System {
    match Rescheduled(s.context, host, kind)
    case Some(c) => s.(context := c)
    case None => Fail(s)
  }

  function TakenStep(s: System, host: string): System
    requires host in s.hosts && PopReady(s.hosts[host].queue)
  {
    var h := s.hosts[host];
    var worker := match Popped(h.queue)
      case Some(job) => Holding(job)
      case None => Exited;
    WithHostAt(s, host, h.(queue := AfterPop(h.queue), worker := worker))
  }

  /** Job::operator(): only periodic jobs carry the handler, and it is told the client's host, which is the url. */
  function PostExecutedStep(s: System, host: string): System
    requires host in s.hosts && s.hosts[host].worker.Ran?
  {
    var h := s.hosts[host];
    var idle := WithHostAt(s, host, h.(worker := Waiting));
    if h.worker.job.Periodic? then
      match PostExecuted(s.context, h.url, h.worker.job, s.clock)
      case Some(c) => idle.(context := c)
      case None => Fail(idle)
    else
      idle
  }

  function Apply(s: System, step: Step): System
    requires Enabled(s, step)
  {
    match step
    case AddConfiguration(host, url) =>
      s.(config := s.config[host := HostSettings(false, false)], phase := Configured(host, url))
    case AddController =>
      s.(hosts := s.hosts[s.phase.host := Host(s.phase.url, QueueState([], false), Unconnected, [], [])],
         phase := Controlled(s.phase.host))
    case AddTasks =>
      s.(context := WithHost(s.context, s.phase.host), phase := Ready)
    case Connect(host) =>
      WithHostAt(s, host, s.hosts[host].(worker := Waiting))
    case RemoveTasks(host) =>
      s.(context := WithoutHost(s.context, host), phase := Unscheduled(host))
    case CloseQueue =>
      var h := s.hosts[s.phase.host];
      WithHostAt(s, s.phase.host, h.(queue := h.queue.(closed := true))).(phase := Closed(s.phase.host))
    case EraseController =>
      s.(hosts := s.hosts - {s.phase.host}, phase := Erased(s.phase.host))
    case RemoveConfiguration =>
      s.(config := s.config - {s.phase.host}, phase := Ready)
    case StopController =>
      s.(stopping := true, context := s.context.(shutdown := true))
    case SetScheduling(host, on) =>
      if host !in s.config then Fail(s)
      else s.(config := s.config[host := s.config[host].(schedulePeriodicTasks := on)])
    case SetActiveOnly(host, on) =>
      if host !in s.config then Fail(s)
      else RescheduledStep(s.(config := s.config[host := s.config[host].(activeOnlyTasks := on)]), host, GET_TASKS)
    case SetInterval(kind, interval) => s.(intervals := s.intervals[kind := interval])
    case RefreshCache => s.(cached := s.intervals)
    case Wait(time) => s.(clock := time)
    case Schedule(host, kind, now) => ScheduledStep(s, host, kind)
    case Reschedule(host, kind) => RescheduledStep(s, host, kind)
    case Operate(host, id) => Pushed(s, host, Operation(id), true)
    case Authorize(host) => Pushed(s, host, Authorization, false)
    case TakeJob(host) => TakenStep(s, host)
    case Execute(host, outcome) => WithHostAt(s, host, Executed(s.hosts[host], s.hosts[host].worker.job, outcome))
    case PostExecute(host) => PostExecutedStep(s, host)
    case ClientLogs(host, message) =>
      WithHostAt(s, host, s.hosts[host].(log := s.hosts[host].log + [message]))
  }

  // ----- runs -----

  /** The three sub-steps of adding a host. */
  function Adding(host: string, url: string): seq<Step> {
    [AddConfiguration(host, url), AddController, AddTasks]
  }

  /** Every step was possible when it was taken. */
  predicate IsRun(s: System, steps: seq<Step>)
    decreases |steps|
  {
    steps == [] || (Enabled(s, steps[0]) && IsRun(Apply(s, steps[0]), steps[1..]))
  }

  function After(s: System, steps: seq<Step>): System
    requires IsRun(s, steps)
    decreases |steps|
  {
    if steps == [] then s else After(Apply(s, steps[0]), steps[1..])
  }

  lemma RunNone(s: System)
    ensures IsRun(s, []) && After(s, []) == s
  {
  }

  lemma RunCons(s: System, step: Step, rest: seq<Step>)
    requires Enabled(s, step) && IsRun(Apply(s, step), rest)
    ensures IsRun(s, [step] + rest) && After(s, [step] + rest) == After(Apply(s, step), rest)
  {
    hide Enabled, Apply;
    assert ([step] + rest)[1..] == rest;
  }

  lemma {:induction false} RunJoin(s: System, a: seq<Step>, b: seq<Step>)
    requires IsRun(s, a) && IsRun(After(s, a), b)
    ensures IsRun(s, a + b) && After(s, a + b) == After(After(s, a), b)
    decreases |a|
  {
    hide Enabled, Apply;
    if a == [] {
      assert a + b == b;
    } else {
      assert (a + b)[1..] == a[1..] + b;
      RunJoin(Apply(s, a[0]), a[1..], b);
    }
  }

  lemma {:induction false} RunConcat(s: System, a: seq<Step>, b: seq<Step>)
    requires IsRun(s, a + b)
    ensures IsRun(s, a) && IsRun(After(s, a), b)
    ensures After(s, a + b) == After(After(s, a), b)
    decreases |a|
  {
    if a == [] {
      assert a + b == b;
    } else {
      assert (a + b)[1..] == a[1..] + b;
      RunConcat(Apply(s, a[0]), a[1..], b);
    }
  }

  /** The steps are possible one after the other, and this is where they lead. */
  ghost predicate Leads(s: System, steps: seq<Step>, t: System) {
    IsRun(s, steps) && t == After(s, steps)
  }

  lemma LeadsConcat(s: System, a: seq<Step>, t: System, b: seq<Step>, u: System)
    requires Leads(s, a, t) && Leads(t, b, u)
    ensures Leads(s, a + b, u)
  {
    hide IsRun, After;
    RunJoin(s, a, b);
  }

  lemma LeadsOn(s: System, steps: seq<Step>, t: System, step: Step)
    requires Leads(s, steps, t) && Enabled(t, step)
    ensures Leads(s, steps + [step], Apply(t, step))
  {
    hide Enabled, Apply;
    RunNone(Apply(t, step));
    RunCons(t, step, []);
    assert [step] + [] == [step];
    RunJoin(s, steps, [step]);
  }
}
