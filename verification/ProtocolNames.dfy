/**
  Why hosts must not be added under each other's urls: with a host `a` at the url `b` there are runs in
  which the host `b` loses a message and in which its flags are wrong. Together with `ExactlyOnceInOrder`
  and `PendingIffOutstanding` this says exactly for which additions of hosts every run delivers every
  host's messages exactly once and in order, and keeps the flags right.
*/
module ProtocolNames {
  import opened JobQueues
  import opened Scheduling
  import opened Protocol
  import opened ProtocolKeys
  import opened ProtocolJobs
  import opened ProtocolRuns
  import opened ProtocolTheorems

  // ----- what a step does to the host it is about, and to the others -----

  ghost predicate Quiet(s: System) {
    s.phase == Ready && !s.failed && !s.stopping && !s.context.shutdown && s.clock == 0
  }

  /** The state of one host: its controller, its setting and its GetMessages task. */
  datatype View = View(host: Host, scheduled: bool, task: Task, cursor: int)

  ghost predicate Shows(s: System, name: string, v: View) {
    && name in s.hosts && name in s.config && name in s.context.tasks && name in s.context.cursors
    && s.hosts[name] == v.host && s.config[name].schedulePeriodicTasks == v.scheduled
    && s.context.tasks[name][GET_MESSAGES] == v.task && s.context.cursors[name].messages == v.cursor
  }

  /** Nothing of this host changes. */
  ghost predicate Keeps(s: System, t: System, name: string) {
    forall v :: Shows(s, name, v) ==> Shows(t, name, v)
  }

  lemma KeepsOn(s: System, t: System, u: System, name: string)
    requires Keeps(s, t, name) && Keeps(t, u, name)
    ensures Keeps(s, u, name)
  {
    hide Shows;
  }

  lemma Connecting(s: System, x: string, v: View)
    requires Quiet(s) && Shows(s, x, v) && v.host.worker == Unconnected
    ensures Enabled(s, Connect(x))
    ensures var t := Apply(s, Connect(x));
            Quiet(t) && Shows(t, x, v.(host := v.host.(worker := Waiting))) && forall y | y != x :: Keeps(s, t, y)
  {
  }

  lemma Enabling(s: System, x: string, v: View)
    requires Quiet(s) && Shows(s, x, v)
    ensures Enabled(s, SetScheduling(x, true))
    ensures var t := Apply(s, SetScheduling(x, true));
            Quiet(t) && Shows(t, x, v.(scheduled := true)) && forall y | y != x :: Keeps(s, t, y)
  {
  }

  lemma Logging(s: System, x: string, v: View, m: Message)
    requires Quiet(s) && Shows(s, x, v) && 0 < m.seqno && LastSeqno(v.host.log) < m.seqno
    ensures Enabled(s, ClientLogs(x, m))
    ensures var t := Apply(s, ClientLogs(x, m));
            Quiet(t) && Shows(t, x, v.(host := v.host.(log := v.host.log + [m]))) && forall y | y != x :: Keeps(s, t, y)
  {
  }

  lemma Forcing(s: System, x: string, v: View)
    requires Quiet(s) && Shows(s, x, v)
    ensures Enabled(s, Reschedule(x, GET_MESSAGES))
    ensures var t := Apply(s, Reschedule(x, GET_MESSAGES));
            Quiet(t) && Shows(t, x, v.(task := Task(v.task.pending, Never))) && forall y | y != x :: Keeps(s, t, y)
  {
  }

  function Asking(cursor: int): Job {
    Periodic(GET_MESSAGES, Seqno(cursor))
  }

  lemma Ticking(s: System, x: string, v: View)
    requires Quiet(s) && Shows(s, x, v) && v.scheduled && v.task == Task(false, Never)
         && v.host.queue == QueueState([], false)
    ensures Enabled(s, Schedule(x, GET_MESSAGES, 0))
    ensures var t := Apply(s, Schedule(x, GET_MESSAGES, 0));
            && Quiet(t) && (forall y | y != x :: Keeps(s, t, y))
            && Shows(t, x, v.(task := Task(true, Never),
                              host := v.host.(queue := QueueState([Asking(v.cursor)], false))))
  {
    assert [] + [Asking(v.cursor)] == [Asking(v.cursor)];
  }

  lemma Taking(s: System, x: string, v: View)
    requires Quiet(s) && Shows(s, x, v) && v.host.worker == Waiting
         && v.host.queue == QueueState([Asking(v.cursor)], false)
    ensures Enabled(s, TakeJob(x))
    ensures var t := Apply(s, TakeJob(x));
            && Quiet(t) && (forall y | y != x :: Keeps(s, t, y))
            && Shows(t, x, v.(host := v.host.(worker := Holding(Asking(v.cursor)), queue := QueueState([], false))))
  {
    assert [Asking(v.cursor)][1..] == [];
  }

  lemma Executing(s: System, x: string, v: View, batch: seq<Message>)
    requires Quiet(s) && Shows(s, x, v) && v.host.worker == Holding(Asking(v.cursor))
    requires Above(v.host.log, v.cursor) == batch && batch != []
    ensures Enabled(s, Execute(x, Replied([])))
    ensures var t := Apply(s, Execute(x, Replied([])));
            && Quiet(t) && (forall y | y != x :: Keeps(s, t, y))
            && Shows(t, x, v.(host := v.host.(worker := Ran(Asking(LastSeqno(batch))),
                                              delivered := v.host.delivered + batch)))
  {
    hide Above;
  }

  /** The report of `x` goes to the host whose name is its url. */
  lemma Reporting(s: System, x: string, v: View, y: string, w: View)
    requires Quiet(s) && Shows(s, x, v) && Shows(s, y, w) && x != y && v.host.url == y
    requires v.host.worker.Ran? && v.host.worker.job.Periodic? && v.host.worker.job.kind == GET_MESSAGES
    requires v.host.worker.job.payload.Seqno?
    ensures Enabled(s, PostExecute(x))
    ensures var t := Apply(s, PostExecute(x));
            && Quiet(t) && Shows(t, x, v.(host := v.host.(worker := Waiting)))
            && Shows(t, y, w.(task := Task(false, At(0)), cursor := v.host.worker.job.payload.seqno))
  {
  }

  // ----- the run -----

  function Fresh(url: string): View {
    View(Host(url, QueueState([], false), Unconnected, [], []), false, Task(false, Never), 0)
  }

  lemma Configuring(s: System, x: string, url: string)
    requires Quiet(s) && KeyChain(s) && x !in s.hosts
    ensures Enabled(s, AddConfiguration(x, url)) && Enabled(Apply(s, AddConfiguration(x, url)), AddController)
    ensures Apply(Apply(s, AddConfiguration(x, url)), AddController)
         == s.(config := s.config[x := HostSettings(false, false)],
               hosts := s.hosts[x := Host(url, QueueState([], false), Unconnected, [], [])],
               phase := Controlled(x))
  {
  }

  lemma Appearing(s: System, x: string, url: string)
    requires Quiet(s) && KeyChain(s) && x !in s.hosts
    ensures var u := s.(config := s.config[x := HostSettings(false, false)],
                        hosts := s.hosts[x := Host(url, QueueState([], false), Unconnected, [], [])],
                        phase := Controlled(x));
            var t := Apply(u, AddTasks);
            && Enabled(u, AddTasks) && Quiet(t) && Shows(t, x, Fresh(url)) && t.hosts.Keys == s.hosts.Keys + {x}
            && forall y | y != x :: Keeps(s, t, y)
  {
    assert FRESH_TASKS[GET_MESSAGES] == IDLE;
  }

  lemma AddingHost(s: System, x: string, url: string) returns (t: System)
    requires Quiet(s) && KeyChain(s) && x !in s.hosts
    ensures Leads(s, Adding(x, url), t) && Quiet(t) && KeyChain(t) && Shows(t, x, Fresh(url))
    ensures t.hosts.Keys == s.hosts.Keys + {x} && forall y | y != x :: Keeps(s, t, y)
  {
    hide Enabled, Apply, KeyChain;
    Configuring(s, x, url);
    Appearing(s, x, url);
    var add := Adding(x, url);
    RunOfThree(s, add[0], add[1], add[2]);
    t := After(s, add);
    RunKeys(s, add);
  }

  lemma Starting(s: System, x: string, v: View, y: string) returns (t: System)
    requires Quiet(s) && Shows(s, x, v) && v.host.worker == Unconnected && x != y
    ensures Leads(s, [Connect(x), SetScheduling(x, true)], t) && Quiet(t) && Keeps(s, t, y)
    ensures Shows(t, x, v.(host := v.host.(worker := Waiting), scheduled := true))
  {
    Connecting(s, x, v);
    var t1 := Apply(s, Connect(x));
    var v1 := v.(host := v.host.(worker := Waiting));
    Enabling(t1, x, v1);
    hide Enabled, Apply, Shows;
    RunOfTwo(s, Connect(x), SetScheduling(x, true));
    t := Apply(t1, SetScheduling(x, true));
  }

  function Fetch(x: string): seq<Step> {
    [Schedule(x, GET_MESSAGES, 0), TakeJob(x), Execute(x, Replied([]))]
  }

  lemma Fetching(s: System, x: string, v: View, batch: seq<Message>, y: string) returns (t: System)
    requires Quiet(s) && Shows(s, x, v) && x != y
    requires v.scheduled && v.task == Task(false, Never) && v.host.worker == Waiting
         && v.host.queue == QueueState([], false)
    requires Above(v.host.log, v.cursor) == batch && batch != []
    ensures Leads(s, Fetch(x), t) && Quiet(t) && Keeps(s, t, y)
    ensures Shows(t, x, v.(task := Task(true, Never),
                           host := v.host.(worker := Ran(Asking(LastSeqno(batch))),
                                           delivered := v.host.delivered + batch)))
  {
    hide Enabled, Apply, Shows, Above, LastSeqno;
    Ticking(s, x, v);
    var t1 := Apply(s, Schedule(x, GET_MESSAGES, 0));
    var v1 := v.(task := Task(true, Never), host := v.host.(queue := QueueState([Asking(v.cursor)], false)));
    Taking(t1, x, v1);
    var t2 := Apply(t1, TakeJob(x));
    var v2 := v1.(host := v1.host.(worker := Holding(Asking(v.cursor)), queue := QueueState([], false)));
    Executing(t2, x, v2, batch);
    RunOfThree(s, Schedule(x, GET_MESSAGES, 0), TakeJob(x), Execute(x, Replied([])));
    t := Apply(t2, Execute(x, Replied([])));
    assert Keeps(s, t1, y) && Keeps(t1, t2, y) && Keeps(t2, t, y);
    KeepsOn(s, t1, t2, y);
    KeepsOn(s, t2, t, y);
  }

  const FIRST := Message(1, "first")
  const SECOND := Message(2, "second")
  const THIRD := Message(3, "third")

  /** A host with its batch in hand. */
  function Fetched(url: string): View {
    View(Host(url, QueueState([], false), Ran(Asking(2)), [SECOND], [SECOND]), true, Task(true, Never), 0)
  }

  function FetchSteps(a: string): seq<Step> {
    [Connect(a), SetScheduling(a, true)] + [ClientLogs(a, SECOND)] + Fetch(a)
  }

  /** A fresh host starts, its client logs a message and its worker fetches it. */
  lemma FetchingFirst(s: System, a: string, url: string, b: string, w: View) returns (t: System)
    requires Quiet(s) && a != b && Shows(s, a, Fresh(url)) && Shows(s, b, w)
    ensures Leads(s, FetchSteps(a), t) && Quiet(t) && Shows(t, a, Fetched(url)) && Shows(t, b, w)
  {
    hide Enabled, Apply, Shows, Leads;
    var s1 := Starting(s, a, Fresh(url), b);
    var v1 := Fresh(url).(host := Fresh(url).host.(worker := Waiting), scheduled := true);
    Logging(s1, a, v1, SECOND);
    var s2 := Apply(s1, ClientLogs(a, SECOND));
    var v2 := v1.(host := v1.host.(log := [SECOND]));
    assert [] + [SECOND] == [SECOND] && [SECOND][1..] == [];
    LeadsOn(s, [Connect(a), SetScheduling(a, true)], s1, ClientLogs(a, SECOND));
    assert Above([SECOND], 0) == [SECOND] + Above([], 0);
    t := Fetching(s2, a, v2, [SECOND], b);
    LeadsConcat(s, [Connect(a), SetScheduling(a, true)] + [ClientLogs(a, SECOND)], s2, Fetch(a), t);
    ShownToo(s, s1, s2, t, b, w);
  }

  /** The host at the other one's url fetches its message, and reports it under the other one's name. */
  lemma Misdirecting(s: System, a: string, b: string, w: View) returns (steps: seq<Step>, t: System)
    requires Quiet(s) && a != b && Shows(s, a, Fresh(b)) && Shows(s, b, w)
    ensures Leads(s, steps, t) && Quiet(t) && Shows(t, b, w.(task := Task(false, At(0)), cursor := 2))
    ensures forall step <- steps :: !step.AddConfiguration?
  {
    hide Enabled, Apply, Shows, Leads;
    var s1 := FetchingFirst(s, a, b, b, w);
    Reporting(s1, a, Fetched(b), b, w);
    t := Apply(s1, PostExecute(a));
    LeadsOn(s, FetchSteps(a), s1, PostExecute(a));
    steps := FetchSteps(a) + [PostExecute(a)];
  }

  lemma ShownToo(s: System, s1: System, s2: System, s3: System, y: string, w: View)
    requires Shows(s, y, w) && Keeps(s, s1, y) && Keeps(s1, s2, y) && Keeps(s2, s3, y)
    ensures Shows(s3, y, w)
  {
    hide Shows;
    assert Shows(s1, y, w) && Shows(s2, y, w);
  }

  /** The other host starts, and its client logs two messages. */
  lemma Preparing(s: System, b: string, w: View, other: string) returns (steps: seq<Step>, t: System)
    requires Quiet(s) && Shows(s, b, w) && w.host.worker == Unconnected && w.host.log == [] && b != other
    ensures Leads(s, steps, t) && Quiet(t)
    ensures Shows(t, b, w.(host := w.host.(worker := Waiting, log := [FIRST, THIRD]), scheduled := true))
    ensures forall step <- steps :: !step.AddConfiguration?
  {
    hide Enabled, Apply, Leads, Shows;
    var s1 := Starting(s, b, w, other);
    var w1 := w.(host := w.host.(worker := Waiting), scheduled := true);
    assert [] + [FIRST] == [FIRST] && [FIRST] + [THIRD] == [FIRST, THIRD];
    Logging(s1, b, w1, FIRST);
    var s2 := Apply(s1, ClientLogs(b, FIRST));
    LeadsOn(s, [Connect(b), SetScheduling(b, true)], s1, ClientLogs(b, FIRST));
    Logging(s2, b, w1.(host := w1.host.(log := [FIRST])), THIRD);
    t := Apply(s2, ClientLogs(b, THIRD));
    LeadsOn(s, [Connect(b), SetScheduling(b, true)] + [ClientLogs(b, FIRST)], s2, ClientLogs(b, THIRD));
    steps := [Connect(b), SetScheduling(b, true)] + [ClientLogs(b, FIRST)] + [ClientLogs(b, THIRD)];
  }

  /** The other host then asks for what is above a number that it has never been sent. */
  lemma Losing(s: System, b: string, v: string, other: string) returns (steps: seq<Step>, t: System)
    requires Quiet(s) && Shows(s, b, Fresh(v).(task := Task(false, At(0)), cursor := 2)) && b != other
    ensures Leads(s, steps, t) && b in t.hosts
    ensures t.hosts[b].log == [FIRST, THIRD] && t.hosts[b].delivered == [THIRD]
    ensures forall step <- steps :: !step.AddConfiguration?
  {
    hide Enabled, Apply, Leads, Shows, Above;
    var w := Fresh(v).(task := Task(false, At(0)), cursor := 2);
    var before, s1 := Preparing(s, b, w, other);
    var w1 := w.(host := w.host.(worker := Waiting, log := [FIRST, THIRD]), scheduled := true);
    Forcing(s1, b, w1);
    var s2 := Apply(s1, Reschedule(b, GET_MESSAGES));
    LeadsOn(s, before, s1, Reschedule(b, GET_MESSAGES));
    OnlyThird();
    var w2 := w1.(task := Task(false, Never));
    t := Fetching(s2, b, w2, [THIRD], other);
    LeadsConcat(s, before + [Reschedule(b, GET_MESSAGES)], s2, Fetch(b), t);
    steps := before + [Reschedule(b, GET_MESSAGES)] + Fetch(b);
    assert [] + [THIRD] == [THIRD];
    Seen(t, b, w2.(task := Task(true, Never),
                   host := w2.host.(worker := Ran(Asking(3)), delivered := w2.host.delivered + [THIRD])));
  }

  lemma OnlyThird()
    ensures Above([FIRST, THIRD], 2) == [THIRD]
  {
    assert [FIRST, THIRD][1..] == [THIRD] && [THIRD][1..] == [];
    assert Above([THIRD], 2) == [THIRD] + Above([], 2);
  }

  lemma Seen(s: System, x: string, v: View)
    requires Shows(s, x, v)
    ensures x in s.hosts && s.hosts[x] == v.host
  {
  }

  function AddBoth(a: string, b: string, v: string): seq<Step> {
    Adding(b, v) + Adding(a, b)
  }

  /** Two fresh hosts, the one at the other's url. */
  lemma AddingBoth(a: string, b: string, v: string) returns (t: System)
    requires a != b
    ensures Leads(START, AddBoth(a, b, v), t) && Quiet(t) && Shows(t, a, Fresh(b)) && Shows(t, b, Fresh(v))
    ensures forall step <- AddBoth(a, b, v) ::
              step.AddConfiguration? ==> step in {AddConfiguration(a, b), AddConfiguration(b, v)}
  {
    hide Enabled, Apply, Shows, KeyChain, Leads;
    StartIsQuiet();
    var s1 := AddingHost(START, b, v);
    t := AddingHost(s1, a, b);
    LeadsConcat(START, Adding(b, v), s1, Adding(a, b), t);
    assert Keeps(s1, t, b);
  }

  /**
    With a host `a` at the url `b`, whatever the url of the host `b` is, there is a run in which `b` loses
    a message.
  */
  lemma LosesMessage(a: string, b: string, v: string) returns (steps: seq<Step>)
    requires a != b
    ensures IsRun(START, steps) && b in After(START, steps).hosts
    ensures !(After(START, steps).hosts[b].delivered <= After(START, steps).hosts[b].log)
    ensures forall step <- steps :: step.AddConfiguration? ==> step in {AddConfiguration(a, b), AddConfiguration(b, v)}
  {
    hide Enabled, Apply, Shows, AddBoth;
    var s1 := AddingBoth(a, b, v);
    var middle, s2 := Misdirecting(s1, a, b, Fresh(v));
    LeadsConcat(START, AddBoth(a, b, v), s1, middle, s2);
    var last, t := Losing(s2, b, v, a);
    LeadsConcat(START, AddBoth(a, b, v) + middle, s2, last, t);
    steps := AddBoth(a, b, v) + middle + last;
    assert t.hosts[b].delivered[0] != t.hosts[b].log[0];
  }

  /** And a run in which the report of `a` clears the flag of a task of `b` whose job is still queued. */
  lemma ClearsFlag(a: string, b: string, v: string) returns (steps: seq<Step>)
    requires a != b
    ensures IsRun(START, steps)
    ensures var t := After(START, steps);
            && !t.failed && !t.context.shutdown && b in t.hosts && b in t.context.tasks
            && !t.context.tasks[b][GET_MESSAGES].pending && Count(Outstanding(t.hosts[b]), GET_MESSAGES) == 1
    ensures forall step <- steps :: step.AddConfiguration? ==> step in {AddConfiguration(a, b), AddConfiguration(b, v)}
  {
    hide Enabled, Apply, Shows, AddBoth, Leads;
    var s1 := AddingBoth(a, b, v);
    var s2 := FetchingFirst(s1, a, b, b, Fresh(v));
    LeadsConcat(START, AddBoth(a, b, v), s1, FetchSteps(a), s2);
    steps := AddBoth(a, b, v) + FetchSteps(a);
    Enabling(s2, b, Fresh(v));
    var w := Fresh(v).(scheduled := true);
    var s3 := Apply(s2, SetScheduling(b, true));
    assert Keeps(s2, s3, a);
    LeadsOn(START, steps, s2, SetScheduling(b, true));
    steps := steps + [SetScheduling(b, true)];
    Ticking(s3, b, w);
    var queued := w.(task := Task(true, Never), host := w.host.(queue := QueueState([Asking(0)], false)));
    var s4 := Apply(s3, Schedule(b, GET_MESSAGES, 0));
    assert Keeps(s3, s4, a) && Shows(s3, a, Fetched(b));
    LeadsOn(START, steps, s3, Schedule(b, GET_MESSAGES, 0));
    steps := steps + [Schedule(b, GET_MESSAGES, 0)];
    Reporting(s4, a, Fetched(b), b, queued);
    var t := Apply(s4, PostExecute(a));
    LeadsOn(START, steps, s4, PostExecute(a));
    steps := steps + [PostExecute(a)];
    SeenIdle(t, b, queued.(task := Task(false, At(0)), cursor := 2));
    LeadsTo(START, steps, t);
  }

  lemma LeadsTo(s: System, steps: seq<Step>, t: System)
    requires Leads(s, steps, t)
    ensures IsRun(s, steps) && After(s, steps) == t
  {
  }

  lemma SeenIdle(s: System, x: string, v: View)
    requires Quiet(s) && Shows(s, x, v) && !v.task.pending
    requires v.host.worker == Unconnected && v.host.queue.jobs == [Asking(0)]
    ensures !s.failed && !s.context.shutdown && x in s.hosts && x in s.context.tasks
    ensures !s.context.tasks[x][GET_MESSAGES].pending && Count(Outstanding(s.hosts[x]), GET_MESSAGES) == 1
  {
    assert Outstanding(v.host) == [Asking(0)] && [Asking(0)][1..] == [];
    assert Count([Asking(0)], GET_MESSAGES) == 1 + Count([], GET_MESSAGES);
  }

  lemma StartIsQuiet()
    ensures Quiet(START) && KeyChain(START) && START.hosts == map[]
  {
  }

  // ----- the exact condition -----

  /** The run adds hosts by these steps only. */
  predicate AddsOnly(steps: seq<Step>, adds: seq<Step>) {
    forall step <- steps :: step.AddConfiguration? ==> step in adds
  }

  ghost predicate DeliversInOrder(steps: seq<Step>)
    requires IsRun(START, steps)
  {
    var s := After(START, steps);
    forall host <- s.hosts.Keys :: s.hosts[host].delivered <= s.hosts[host].log
  }

  /**
    Exactly once and in order, for every run that adds hosts as given: if and only if none of them is
    added under the url of another one.
  */
  lemma ExactlyOnceIffNamesApart(adds: seq<Step>)
    requires forall step <- adds :: step.AddConfiguration?
    ensures (forall steps | IsRun(START, steps) && AddsOnly(steps, adds) :: DeliversInOrder(steps))
         <==> NamesApart(adds)
  {
    if NamesApart(adds) {
      forall steps | IsRun(START, steps) && AddsOnly(steps, adds) ensures DeliversInOrder(steps) {
        AllInOrder(steps, adds);
      }
    } else {
      var x, y :| x in adds && y in adds && x.url == y.host && x.host != y.host;
      var steps := LosesMessage(x.host, y.host, y.url);
      assert AddConfiguration(x.host, y.host) == x && AddConfiguration(y.host, y.url) == y;
      assert AddsOnly(steps, adds);
      assert !DeliversInOrder(steps);
    }
  }

  lemma AllInOrder(steps: seq<Step>, adds: seq<Step>)
    requires IsRun(START, steps) && AddsOnly(steps, adds) && NamesApart(adds)
    ensures DeliversInOrder(steps)
  {
    assert NamesApart(steps);
    hide IsRun, After;
    forall host | host in After(START, steps).hosts
      ensures After(START, steps).hosts[host].delivered <= After(START, steps).hosts[host].log
    {
      ExactlyOnceInOrder(steps, host);
    }
  }

  /**
    Each task of a host has at most one outstanding job, and while it is scheduled its flag says whether
    there is one.
  */
  ghost predicate TasksInStep(steps: seq<Step>)
    requires IsRun(START, steps)
  {
    var s := After(START, steps);
    forall host <- s.hosts.Keys, kind: Kind :: FlagRight(s, host, kind)
  }

  ghost predicate FlagRight(s: System, host: string, kind: Kind)
    requires host in s.hosts
  {
    && Count(Outstanding(s.hosts[host]), kind) <= 1
    && (host in s.context.tasks && !s.context.shutdown && !s.failed ==>
          (s.context.tasks[host][kind].pending <==> Count(Outstanding(s.hosts[host]), kind) == 1))
  }

  /**
    Flags and outstanding jobs, for every run that adds hosts as given: they agree if and only if none of
    the hosts is added under the url of another one.
  */
  lemma PendingIffNamesApart(adds: seq<Step>)
    requires forall step <- adds :: step.AddConfiguration?
    ensures (forall steps | IsRun(START, steps) && AddsOnly(steps, adds) :: TasksInStep(steps)) <==> NamesApart(adds)
  {
    if NamesApart(adds) {
      forall steps | IsRun(START, steps) && AddsOnly(steps, adds) ensures TasksInStep(steps) {
        AllInStep(steps, adds);
      }
    } else {
      var x, y :| x in adds && y in adds && x.url == y.host && x.host != y.host;
      var steps := ClearsFlag(x.host, y.host, y.url);
      assert AddConfiguration(x.host, y.host) == x && AddConfiguration(y.host, y.url) == y;
      assert AddsOnly(steps, adds);
      assert !FlagRight(After(START, steps), y.host, GET_MESSAGES);
    }
  }

  lemma AllInStep(steps: seq<Step>, adds: seq<Step>)
    requires IsRun(START, steps) && AddsOnly(steps, adds) && NamesApart(adds)
    ensures TasksInStep(steps)
  {
    assert NamesApart(steps);
    hide IsRun, After, Count, Outstanding;
    forall host | host in After(START, steps).hosts
      ensures forall kind: Kind :: FlagRight(After(START, steps), host, kind)
    {
      PendingIffOutstanding(steps, host);
    }
  }
}
