/**
  A tick of the scheduler is a run of `Schedule` steps: what the nested loops of
  `SchedulerContext.Tick` compute is where the system gets to by scheduling the due tasks one by one.
*/
module ProtocolTick {
  import opened Orders
  import opened JobQueues
  import opened Scheduling
  import opened Protocol
  import opened ProtocolKeys
  import opened ProtocolProgress

  function StepsOf(jobs: seq<Scheduled>, now: int): seq<Step> {
    if jobs == [] then [] else [Schedule(jobs[0].host, jobs[0].kind, now)] + StepsOf(jobs[1..], now)
  }

  /** The jobs for one host, in order. */
  function JobsFor(jobs: seq<Scheduled>, host: string): seq<Job> {
    if jobs == [] then []
    else (if jobs[0].host == host then [jobs[0].job] else []) + JobsFor(jobs[1..], host)
  }

  predicate Has(jobs: seq<Scheduled>, host: string, kind: Kind) {
    exists j <- jobs :: j.host == host && j.kind == kind
  }

  ghost predicate Distinct(jobs: seq<Scheduled>) {
    forall i, j :: 0 <= i < j < |jobs| ==> jobs[i].host != jobs[j].host || jobs[i].kind != jobs[j].kind
  }

  predicate Schedulable(c: Context, config: map<string, HostSettings>, intervals: Intervals, j: Scheduled, now: int) {
    && j.host in c.tasks && j.host in c.cursors && j.host in config
    && config[j.host].schedulePeriodicTasks
    && Due(c.tasks[j.host][j.kind], intervals[j.kind], now)
    && j.job == JobFor(j.kind, c.cursors[j.host], config[j.host].activeOnlyTasks)
  }

  ghost predicate CanTick(s: System, jobs: seq<Scheduled>, now: int) {
    && KeyChain(s) && !s.failed && !s.context.shutdown && now <= s.clock
    && Distinct(jobs)
    && forall j <- jobs :: Schedulable(s.context, s.config, s.cached, j, now)
  }

  /** The effect of scheduling these jobs, and nothing else. */
  ghost predicate HasScheduled(s: System, t: System, jobs: seq<Scheduled>) {
    && t == s.(context := t.context, hosts := t.hosts)
    && t.context == Context(t.context.tasks, s.context.cursors, s.context.shutdown)
    && t.context.tasks.Keys == s.context.tasks.Keys && t.hosts.Keys == s.hosts.Keys
    && (forall h <- s.context.tasks.Keys, k: Kind ::
          t.context.tasks[h][k] == if Has(jobs, h, k) then Pending(s.context.tasks[h][k]) else s.context.tasks[h][k])
    && (forall h <- s.hosts.Keys :: t.hosts[h] == Extended(s.hosts[h], JobsFor(jobs, h)))
  }

  lemma OneJobState(s: System, j: Scheduled, now: int)
    requires KeyChain(s) && !s.failed && !s.context.shutdown && now <= s.clock
    requires Schedulable(s.context, s.config, s.cached, j, now)
    ensures Enabled(s, Schedule(j.host, j.kind, now)) && j.host in s.hosts
    ensures var h := s.hosts[j.host];
            Apply(s, Schedule(j.host, j.kind, now))
            == s.(context := WithPending(s.context, j.host, j.kind),
                  hosts := s.hosts[j.host := h.(queue := QueueState(h.queue.jobs + [j.job], false))])
  {
    assert j.host in s.hosts && !s.hosts[j.host].queue.closed;
  }

  lemma OneJobEffect(s: System, t: System, j: Scheduled)
    requires j.host in s.context.tasks && j.host in s.hosts && !s.hosts[j.host].queue.closed
    requires var h := s.hosts[j.host];
             t == s.(context := WithPending(s.context, j.host, j.kind),
                     hosts := s.hosts[j.host := h.(queue := QueueState(h.queue.jobs + [j.job], false))])
    ensures HasScheduled(s, t, [j])
  {
    assert [j][0] == j && [j][1..] == [];
    forall h: string, k: Kind ensures Has([j], h, k) <==> h == j.host && k == j.kind {
      if h == j.host && k == j.kind { assert j in [j]; }
    }
    forall h <- s.hosts.Keys ensures t.hosts[h] == Extended(s.hosts[h], JobsFor([j], h)) {
      assert s.hosts[h].queue.jobs + [] == s.hosts[h].queue.jobs;
    }
  }

  lemma OneJob(s: System, j: Scheduled, now: int)
    requires KeyChain(s) && !s.failed && !s.context.shutdown && now <= s.clock
    requires Schedulable(s.context, s.config, s.cached, j, now)
    ensures Enabled(s, Schedule(j.host, j.kind, now))
    ensures HasScheduled(s, Apply(s, Schedule(j.host, j.kind, now)), [j])
  {
    OneJobState(s, j, now);
    hide Apply, Enabled, Due, HasScheduled, WithPending;
    OneJobEffect(s, Apply(s, Schedule(j.host, j.kind, now)), j);
  }

  lemma StillSchedulable(s: System, t: System, jobs: seq<Scheduled>, now: int)
    requires CanTick(s, jobs, now) && jobs != [] && KeyChain(t) && HasScheduled(s, t, [jobs[0]])
    ensures CanTick(t, jobs[1..], now)
  {
    forall x <- jobs[1..] ensures Schedulable(t.context, t.config, t.cached, x, now) {
      assert Schedulable(s.context, s.config, s.cached, x, now);
      var i :| 0 <= i < |jobs[1..]| && jobs[1..][i] == x;
      assert jobs[i + 1] == x;
      assert !Has([jobs[0]], x.host, x.kind);
    }
  }

  lemma Compose(s: System, t: System, u: System, jobs: seq<Scheduled>)
    requires jobs != [] && Distinct(jobs)
    requires HasScheduled(s, t, [jobs[0]]) && HasScheduled(t, u, jobs[1..])
    ensures HasScheduled(s, u, jobs)
  {
    var j := jobs[0];
    assert [j][0] == j && [j][1..] == [];
    forall h: string, k: Kind ensures Has(jobs, h, k) <==> Has([j], h, k) || Has(jobs[1..], h, k) {
      if Has(jobs[1..], h, k) {
        var x :| x in jobs[1..] && x.host == h && x.kind == k;
        assert x in jobs;
      }
      if Has([j], h, k) { assert j in jobs; }
      if Has(jobs, h, k) {
        var x :| x in jobs && x.host == h && x.kind == k;
        if x != j { assert x in jobs[1..]; } else { assert x in [j]; }
      }
    }
    forall h <- s.hosts.Keys ensures u.hosts[h] == Extended(s.hosts[h], JobsFor(jobs, h)) {
      ComposeQueue(s.hosts[h], jobs, h);
    }
  }

  function Extended(h: Host, jobs: seq<Job>): Host {
    h.(queue := h.queue.(jobs := h.queue.jobs + jobs))
  }

  lemma ComposeQueue(h: Host, jobs: seq<Scheduled>, host: string)
    requires jobs != []
    ensures Extended(Extended(h, JobsFor([jobs[0]], host)), JobsFor(jobs[1..], host))
         == Extended(h, JobsFor(jobs, host))
  {
    var j := jobs[0];
    assert [j][1..] == [];
    assert JobsFor([j], host) + JobsFor(jobs[1..], host) == JobsFor(jobs, host);
    var q := h.queue.jobs;
    assert q + JobsFor([j], host) + JobsFor(jobs[1..], host) == q + JobsFor(jobs, host);
  }

  /** Scheduling distinct due tasks one after the other is always possible, and adds up. */
  lemma {:induction false} ScheduleAll(s: System, jobs: seq<Scheduled>, now: int)
    requires CanTick(s, jobs, now)
    ensures IsRun(s, StepsOf(jobs, now)) && HasScheduled(s, After(s, StepsOf(jobs, now)), jobs)
    decreases |jobs|
  {
    if jobs == [] {
      assert forall h <- s.hosts.Keys :: s.hosts[h].queue.jobs + [] == s.hosts[h].queue.jobs;
    } else {
      var j := jobs[0];
      OneJob(s, j, now);
      var t := Apply(s, Schedule(j.host, j.kind, now));
      ScheduledKeys(s, j.host, j.kind);
      StillSchedulable(s, t, jobs, now);
      ScheduleAll(t, jobs[1..], now);
      assert StepsOf(jobs, now)[1..] == StepsOf(jobs[1..], now);
      Compose(s, t, After(t, StepsOf(jobs[1..], now)), jobs);
    }
  }

  // ----- what a tick schedules -----

  /** The condition under which a tick schedules a task of a host. */
  predicate Wanted(c: Context, config: map<string, HostSettings>, intervals: Intervals, host: string, kind: Kind,
                   now: int) {
    && host in c.tasks && host in c.cursors && host in config
    && config[host].schedulePeriodicTasks && Due(c.tasks[host][kind], intervals[kind], now)
  }

  lemma {:induction false} DueJobsSound(host: string, ts: Tasks, cursor: Cursor, settings: HostSettings,
                                         intervals: Intervals, now: int, upto: nat)
    requires upto <= KIND_COUNT
    ensures var jobs := DueJobs(host, ts, cursor, settings, intervals, now, upto);
            && (forall j <- jobs :: j.host == host && j.kind < upto && settings.schedulePeriodicTasks
                  && Due(ts[j.kind], intervals[j.kind], now)
                      && j.job == JobFor(j.kind, cursor, settings.activeOnlyTasks))
            && Distinct(jobs)
  {
    if upto > 0 && settings.schedulePeriodicTasks {
      DueJobsSound(host, ts, cursor, settings, intervals, now, upto - 1);
    }
  }

  lemma {:induction false} DueJobsComplete(host: string, ts: Tasks, cursor: Cursor, settings: HostSettings,
                                            intervals: Intervals, now: int, upto: nat, kind: Kind)
    requires kind < upto <= KIND_COUNT && settings.schedulePeriodicTasks && Due(ts[kind], intervals[kind], now)
    ensures Has(DueJobs(host, ts, cursor, settings, intervals, now, upto), host, kind)
  {
    var before := DueJobs(host, ts, cursor, settings, intervals, now, upto - 1);
    var jobs := DueJobs(host, ts, cursor, settings, intervals, now, upto);
    assert before <= jobs;
    if kind < upto - 1 {
      DueJobsComplete(host, ts, cursor, settings, intervals, now, upto - 1, kind);
      var x :| x in before && x.host == host && x.kind == kind;
      assert x in jobs;
    } else {
      assert jobs[|jobs| - 1] in jobs;
    }
  }

  lemma {:induction false} TickJobsAre(c: Context, config: map<string, HostSettings>, hosts: seq<string>,
                                       intervals: Intervals, now: int)
    requires forall h <- hosts :: h in c.tasks && h in c.cursors && h in config
    requires NoDuplicates(hosts) && !c.shutdown
    ensures var jobs := TickJobs(c, config, hosts, intervals, now);
            && (forall j <- jobs :: j.host in hosts && Schedulable(c, config, intervals, j, now))
            && Distinct(jobs)
            && (forall h <- hosts, k: Kind :: Wanted(c, config, intervals, h, k, now) ==> Has(jobs, h, k))
  {
    if hosts != [] {
      var rest, h := hosts[..|hosts| - 1], hosts[|hosts| - 1];
      TickJobsAre(c, config, rest, intervals, now);
      DueJobsSound(h, c.tasks[h], c.cursors[h], config[h], intervals, now, KIND_COUNT);
      var before := TickJobs(c, config, rest, intervals, now);
      var last := DueJobs(h, c.tasks[h], c.cursors[h], config[h], intervals, now, KIND_COUNT);
      assert h !in rest;
      DistinctConcat(before, last);
      forall g <- hosts, k: Kind | Wanted(c, config, intervals, g, k, now) ensures Has(before + last, g, k) {
        if g == h {
          DueJobsComplete(h, c.tasks[h], c.cursors[h], config[h], intervals, now, KIND_COUNT, k);
          var x :| x in last && x.host == h && x.kind == k;
          assert x in before + last;
        } else {
          assert g in rest;
          var x :| x in before && x.host == g && x.kind == k;
          assert x in before + last;
        }
      }
    }
  }

  /**
    What one tick does to one task, in terms of times: it is emitted, and becomes pending, if and only if
    there was no shutdown, its host is to be scheduled, and the task is idle and never ran or its interval
    is over; its job carries the number or the option of that moment.
  */
  lemma TickSchedulesIff(c: Context, config: map<string, HostSettings>, hosts: seq<string>, intervals: Intervals,
                         now: int, host: string, kind: Kind)
    requires forall h <- hosts :: h in c.tasks && h in c.cursors && h in config
    requires NoDuplicates(hosts) && host in hosts
    ensures var wanted := config[host].schedulePeriodicTasks && IntervalOver(c.tasks[host][kind], intervals[kind], now);
            var jobs := TickJobs(c, config, hosts, intervals, now);
            && ((exists j <- jobs :: j.host == host && j.kind == kind) <==> wanted && !c.shutdown)
            && TickedTasks(c.tasks[host], config[host], intervals, now)[kind]
               == (if wanted then Task(true, c.tasks[host][kind].lastExecution) else c.tasks[host][kind])
            && forall j <- jobs :: j.host == host && j.kind == kind ==>
                 j.job == Periodic(kind, if kind == GET_MESSAGES then Seqno(c.cursors[host].messages)
                                         else if kind == GET_NOTICES then Seqno(c.cursors[host].notices)
                                         else if kind == GET_TASKS then ActiveOnly(config[host].activeOnlyTasks)
                                         else NoPayload)
  {
    if !c.shutdown {
      TickJobsAre(c, config, hosts, intervals, now);
      hide TickJobs, NoDuplicates;
      assert Wanted(c, config, intervals, host, kind, now)
        <==> config[host].schedulePeriodicTasks && IntervalOver(c.tasks[host][kind], intervals[kind], now);
    }
  }

  /** In the order of the hosts, and for one host in the order of the tasks. */
  ghost predicate Precedes(hosts: seq<string>, a: Scheduled, b: Scheduled) {
    exists p, q :: 0 <= p <= q < |hosts| && hosts[p] == a.host && hosts[q] == b.host && (p < q || a.kind < b.kind)
  }

  ghost predicate InOrder(hosts: seq<string>, jobs: seq<Scheduled>) {
    forall i, j :: 0 <= i < j < |jobs| ==> Precedes(hosts, jobs[i], jobs[j])
  }

  lemma {:induction false} DueJobsInOrder(host: string, ts: Tasks, cursor: Cursor, settings: HostSettings,
                                           intervals: Intervals, now: int, upto: nat)
    requires upto <= KIND_COUNT
    ensures var jobs := DueJobs(host, ts, cursor, settings, intervals, now, upto);
            && (forall j <- jobs :: j.host == host && j.kind < upto)
            && forall i, j :: 0 <= i < j < |jobs| ==> jobs[i].kind < jobs[j].kind
  {
    hide Due, JobFor;
    if upto > 0 && settings.schedulePeriodicTasks {
      DueJobsInOrder(host, ts, cursor, settings, intervals, now, upto - 1);
    }
  }

  /** The jobs of a tick are emitted in this order. */
  lemma {:induction false} TickInOrder(c: Context, config: map<string, HostSettings>, hosts: seq<string>,
                                       intervals: Intervals, now: int)
    requires forall h <- hosts :: h in c.tasks && h in c.cursors && h in config
    ensures var jobs := TickJobs(c, config, hosts, intervals, now);
            && (forall j <- jobs :: j.host in hosts)
            && InOrder(hosts, jobs)
  {
    if hosts != [] && !c.shutdown {
      hide DueJobs, InOrder;
      var front, h := hosts[..|hosts| - 1], hosts[|hosts| - 1];
      TickInOrder(c, config, front, intervals, now);
      DueJobsInOrder(h, c.tasks[h], c.cursors[h], config[h], intervals, now, KIND_COUNT);
      var before := TickJobs(c, config, front, intervals, now);
      var last := DueJobs(h, c.tasks[h], c.cursors[h], config[h], intervals, now, KIND_COUNT);
      var jobs := before + last;
      assert jobs == TickJobs(c, config, hosts, intervals, now);
      hide TickJobs;
      assert front + [h] == hosts;
      InOrderConcat(before, last, front, h);
    }
  }

  lemma InOrderConcat(before: seq<Scheduled>, last: seq<Scheduled>, front: seq<string>, h: string)
    requires (forall x <- before :: x.host in front) && InOrder(front, before)
    requires (forall x <- last :: x.host == h) && forall i, j :: 0 <= i < j < |last| ==> last[i].kind < last[j].kind
    ensures InOrder(front + [h], before + last)
  {
    forall i, j | 0 <= i < j < |before + last| ensures Precedes(front + [h], (before + last)[i], (before + last)[j]) {
      OneBeforeOther(before, last, front, h, i, j);
    }
  }

  lemma OneBeforeOther(before: seq<Scheduled>, last: seq<Scheduled>, front: seq<string>, h: string, i: nat, j: nat)
    requires forall x <- before :: x.host in front
    requires InOrder(front, before)
    requires (forall x <- last :: x.host == h) && forall i, j :: 0 <= i < j < |last| ==> last[i].kind < last[j].kind
    requires i < j < |before + last|
    ensures Precedes(front + [h], (before + last)[i], (before + last)[j])
  {
    var hosts, n := front + [h], |front|;
    assert hosts[n] == h;
    if j < |before| {
      assert Precedes(front, before[i], before[j]);
      var p, q :| 0 <= p <= q < n && front[p] == before[i].host && front[q] == before[j].host
                  && (p < q || before[i].kind < before[j].kind);
      assert hosts[p] == front[p] && hosts[q] == front[q];
    } else if i < |before| {
      assert before[i] in before && last[j - |before|] in last;
      var p :| 0 <= p < n && front[p] == before[i].host;
      assert hosts[p] == front[p];
    } else {
      assert last[i - |before|] in last && last[j - |before|] in last;
    }
  }

  lemma DistinctConcat(a: seq<Scheduled>, b: seq<Scheduled>)
    requires Distinct(a) && Distinct(b)
    requires forall x <- a, y <- b :: x.host != y.host
    ensures Distinct(a + b)
  {
    forall i, j | 0 <= i < j < |a + b|
      ensures (a + b)[i].host != (a + b)[j].host || (a + b)[i].kind != (a + b)[j].kind
    {
      if i < |a| <= j { assert a[i] in a && b[j - |a|] in b; }
    }
  }

  /**
    Refinement: in any state of the system, the jobs a tick emits can be scheduled step by step, and the
    scheduler's tasks end up exactly as the tick leaves them: the due tasks of the hosts that are to be
    scheduled, and no others, are pending, and each queue has gained its host's jobs at the back.
  */
  lemma TickIsRun(s: System, hosts: seq<string>, now: int)
    requires KeyChain(s) && !s.failed && !s.context.shutdown && now <= s.clock
    requires IsOrderOf(hosts, s.context.tasks.Keys) && s.context.tasks.Keys <= s.config.Keys
    ensures var jobs := TickJobs(s.context, s.config, hosts, s.cached, now);
            && IsRun(s, StepsOf(jobs, now))
            && var t := After(s, StepsOf(jobs, now));
               && t.context.tasks.Keys == s.context.tasks.Keys && t.hosts.Keys == s.hosts.Keys
               && (forall h <- s.context.tasks.Keys ::
                     t.context.tasks[h] == TickedTasks(s.context.tasks[h], s.config[h], s.cached, now))
               && (forall h <- s.hosts.Keys ::
                     t.hosts[h].queue.jobs == s.hosts[h].queue.jobs + JobsFor(jobs, h))
  {
    var jobs := TickJobs(s.context, s.config, hosts, s.cached, now);
    TickJobsAre(s.context, s.config, hosts, s.cached, now);
    ScheduleAll(s, jobs, now);
    var t := After(s, StepsOf(jobs, now));
    hide After, IsRun, KeyChain, TickJobs, Schedulable, Has, Wanted, JobsFor;
    TasksTicked(s, t, jobs, hosts, now);
  }

  lemma TasksTicked(s: System, t: System, jobs: seq<Scheduled>, hosts: seq<string>, now: int)
    requires s.context.tasks.Keys == s.context.cursors.Keys <= s.config.Keys
    requires IsOrderOf(hosts, s.context.tasks.Keys) && HasScheduled(s, t, jobs)
    requires forall j <- jobs :: Schedulable(s.context, s.config, s.cached, j, now)
    requires forall h <- hosts, k: Kind :: Wanted(s.context, s.config, s.cached, h, k, now) ==> Has(jobs, h, k)
    ensures forall h <- s.context.tasks.Keys ::
              t.context.tasks[h] == TickedTasks(s.context.tasks[h], s.config[h], s.cached, now)
  {
    hide Due, JobFor, JobsFor, Extended;
    forall h <- s.context.tasks.Keys
      ensures t.context.tasks[h] == TickedTasks(s.context.tasks[h], s.config[h], s.cached, now)
    {
      assert h in hosts;
      forall k: Kind
        ensures t.context.tasks[h][k] == TickedTasks(s.context.tasks[h], s.config[h], s.cached, now)[k]
      {
        assert Has(jobs, h, k) <==> Wanted(s.context, s.config, s.cached, h, k, now);
      }
    }
  }
}
