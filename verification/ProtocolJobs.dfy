/**
  What every step keeps about the jobs of one host: at most one outstanding job per periodic task,
  operations ahead of everything else in the queue, and message batches that are never lost or repeated.
*/
module ProtocolJobs {
  import opened JobQueues
  import opened Scheduling
  import opened Protocol

  // ----- outstanding jobs -----

  function Hand(w: Worker): seq<Job> {
    match w
    case Holding(job) => [job]
    case Ran(job) => [job]
    case _ => []
  }

  /** The jobs in the worker's hands and in the queue. */
  function Outstanding(h: Host): seq<Job> {
    Hand(h.worker) + h.queue.jobs
  }

  predicate IsKind(job: Job, kind: Kind) {
    job.Periodic? && job.kind == kind
  }

  function Count(jobs: seq<Job>, kind: Kind): nat {
    if jobs == [] then 0 else (if IsKind(jobs[0], kind) then 1 else 0) + Count(jobs[1..], kind)
  }

  lemma {:induction false} CountConcat(a: seq<Job>, b: seq<Job>, kind: Kind)
    ensures Count(a + b, kind) == Count(a, kind) + Count(b, kind)
  {
    if a == [] {
      assert a + b == b;
    } else {
      assert (a + b)[1..] == a[1..] + b;
      CountConcat(a[1..], b, kind);
    }
  }

  lemma {:induction false} CountPositive(jobs: seq<Job>, kind: Kind)
    ensures Count(jobs, kind) > 0 <==> exists j <- jobs :: IsKind(j, kind)
  {
    if jobs != [] {
      assert jobs == [jobs[0]] + jobs[1..];
      CountPositive(jobs[1..], kind);
    }
  }

  // ----- messages -----

  ghost predicate LogOk(log: seq<Message>) {
    && (forall i :: 0 <= i < |log| ==> log[i].seqno > 0)
    && (forall i, j :: 0 <= i < j < |log| ==> log[i].seqno < log[j].seqno)
  }

  lemma {:induction false} AboveAll(log: seq<Message>, n: int)
    requires forall m <- log :: m.seqno > n
    ensures Above(log, n) == log
  {
    if log != [] {
      AboveAll(log[1..], n);
    }
  }

  /** The reply to a request with the seqno of the last delivered message is exactly the undelivered rest of the log. */
  lemma {:induction false} AboveIsRest(log: seq<Message>, k: nat)
    requires LogOk(log) && k <= |log|
    ensures Above(log, LastSeqno(log[..k])) == log[k..]
  {
    if k == 0 {
      AboveAll(log, 0);
    } else {
      AboveFrom(log, k, log[k - 1].seqno);
    }
  }

  lemma {:induction false} AboveFrom(log: seq<Message>, k: nat, n: int)
    requires k <= |log|
    requires forall i :: 0 <= i < k ==> log[i].seqno <= n
    requires forall i :: k <= i < |log| ==> log[i].seqno > n
    ensures Above(log, n) == log[k..]
  {
    if k == 0 {
      AboveAll(log, n);
    } else {
      AboveFrom(log[1..], k - 1, n);
    }
  }

  // ----- the invariant of one host -----

  predicate CarriesCursor(job: Job, delivered: seq<Message>) {
    IsKind(job, GET_MESSAGES) ==> job.payload == Seqno(LastSeqno(delivered))
  }

  ghost predicate MessagesOk(h: Host) {
    && LogOk(h.log)
    && h.delivered <= h.log
    && (forall j <- Outstanding(h) :: CarriesCursor(j, h.delivered))
  }

  ghost predicate OperationsFirst(jobs: seq<Job>) {
    forall i, j :: 0 <= i < j < |jobs| && jobs[j].Operation? ==> jobs[i].Operation?
  }

  ghost predicate AtMostOne(h: Host) {
    forall k: Kind :: Count(Outstanding(h), k) <= 1
  }

  /** While the scheduler knows the host and is running. */
  ghost predicate Synchronized(ts: Tasks, cursor: Cursor, h: Host) {
    && (forall k: Kind :: ts[k].pending <==> Count(Outstanding(h), k) == 1)
    && (Count(Outstanding(h), GET_MESSAGES) == 0 ==> cursor.messages == LastSeqno(h.delivered))
  }

  ghost predicate HostOk(c: Context, name: string, h: Host) {
    && AtMostOne(h)
    && OperationsFirst(h.queue.jobs)
    && MessagesOk(h)
    && (name in c.tasks && name in c.cursors && !c.shutdown ==> Synchronized(c.tasks[name], c.cursors[name], h))
  }

  ghost predicate JobsOk(s: System) {
    && (forall name <- s.hosts.Keys :: HostOk(s.context, name, s.hosts[name]))
    && (s.phase.Controlled? && s.phase.host in s.hosts ==>
          Outstanding(s.hosts[s.phase.host]) == [] && s.hosts[s.phase.host].delivered == [])
  }

  /** What is left of it when an exception has ended the process. */
  ghost predicate HostSafe(h: Host) {
    AtMostOne(h) && OperationsFirst(h.queue.jobs) && MessagesOk(h)
  }

  ghost predicate Safe(s: System) {
    forall name <- s.hosts.Keys :: HostSafe(s.hosts[name])
  }

  lemma OkIsSafe(s: System)
    requires JobsOk(s)
    ensures Safe(s)
  {
    forall name <- s.hosts.Keys ensures HostSafe(s.hosts[name]) {
      assert HostOk(s.context, name, s.hosts[name]);
    }
  }

  // ----- one host, one transition -----

  /** A job that is not periodic changes no count and carries no cursor. */
  lemma PushOther(c: Context, name: string, h: Host, job: Job, front: bool)
    requires HostOk(c, name, h) && !job.Periodic? && (job.Operation? <==> front)
    ensures HostOk(c, name, h.(queue := Push(h.queue, job, front)))
  {
    var h' := h.(queue := Push(h.queue, job, front));
    forall k: Kind ensures Count(Outstanding(h'), k) == Count(Outstanding(h), k) {
      CountConcat(Hand(h.worker), h.queue.jobs, k);
      CountConcat(Hand(h.worker), h'.queue.jobs, k);
      CountConcat([job], h.queue.jobs, k);
      CountConcat(h.queue.jobs, [job], k);
    }
    forall j <- Outstanding(h') ensures CarriesCursor(j, h.delivered) {
      if j != job {
        assert j in Outstanding(h);
      }
    }
  }

  /** A periodic job pushed at the back is one more outstanding job of its kind. */
  lemma PushedCounts(h: Host, job: Job, kind: Kind)
    requires IsKind(job, kind) && !h.queue.closed
    ensures var h' := h.(queue := Push(h.queue, job, false));
            && Outstanding(h') == Outstanding(h) + [job]
            && forall k: Kind :: Count(Outstanding(h'), k) == Count(Outstanding(h), k) + (if k == kind then 1 else 0)
  {
    var h' := h.(queue := Push(h.queue, job, false));
    assert Outstanding(h') == Outstanding(h) + [job];
    forall k: Kind
      ensures Count(Outstanding(h'), k) == Count(Outstanding(h), k) + (if k == kind then 1 else 0)
    {
      CountConcat(Outstanding(h), [job], k);
    }
  }

  lemma PushedPeriodic(c: Context, name: string, h: Host, h': Host, job: Job, kind: Kind)
    requires HostOk(c, name, h) && name in c.tasks && name in c.cursors && !c.shutdown && !c.tasks[name][kind].pending
    requires job.Periodic? && (IsKind(job, GET_MESSAGES) ==> job.payload == Seqno(c.cursors[name].messages))
    requires h' == h.(queue := QueueState(h.queue.jobs + [job], false))
    requires Outstanding(h') == Outstanding(h) + [job]
    requires forall k: Kind :: Count(Outstanding(h'), k) == Count(Outstanding(h), k) + (if k == kind then 1 else 0)
    requires IsKind(job, kind)
    ensures HostOk(WithPending(c, name, kind), name, h')
  {
    assert IsKind(job, GET_MESSAGES) ==> Count(Outstanding(h), GET_MESSAGES) == 0;
    hide Outstanding, LogOk, Count, LastSeqno;
  }

  lemma PushPeriodic(c: Context, name: string, h: Host, kind: Kind, activeOnly: bool)
    requires HostOk(c, name, h) && !h.queue.closed && !c.shutdown
    requires name in c.tasks && name in c.cursors && !c.tasks[name][kind].pending
    ensures HostOk(WithPending(c, name, kind), name,
                   h.(queue := Push(h.queue, JobFor(kind, c.cursors[name], activeOnly), false)))
  {
    var job := JobFor(kind, c.cursors[name], activeOnly);
    hide HostOk, Outstanding, WithPending;
    PushedCounts(h, job, kind);
    PushedPeriodic(c, name, h, h.(queue := Push(h.queue, job, false)), job, kind);
  }

  lemma Take(c: Context, name: string, h: Host, h': Host)
    requires HostOk(c, name, h) && h.worker == Waiting
    requires !h.queue.closed && h.queue.jobs != []
    requires h' == h.(queue := AfterPop(h.queue), worker := Holding(h.queue.jobs[0]))
    ensures HostOk(c, name, h')
  {
    assert Outstanding(h') == Outstanding(h);
  }

  lemma TakeNothing(c: Context, name: string, h: Host)
    requires HostOk(c, name, h) && h.worker == Waiting
    ensures HostOk(c, name, h.(worker := Exited))
  {
    assert Outstanding(h.(worker := Exited)) == Outstanding(h);
  }

  /** Two jobs of the same kind in place of each other. */
  lemma CountReplace(a: Job, b: Job, rest: seq<Job>, kind: Kind)
    requires forall k: Kind :: IsKind(a, k) <==> IsKind(b, k)
    ensures Count([a] + rest, kind) == Count([b] + rest, kind)
  {
    assert ([a] + rest)[1..] == rest == ([b] + rest)[1..];
  }

  /** The worker's own periodic job is the only one of its kind. */
  lemma OnlyInHand(h: Host, job: Job, kind: Kind)
    requires AtMostOne(h) && Hand(h.worker) == [job] && IsKind(job, kind)
    ensures forall j <- h.queue.jobs :: !IsKind(j, kind)
    ensures Count(h.queue.jobs, kind) == 0 && Count(Outstanding(h), kind) == 1
  {
    CountConcat([job], h.queue.jobs, kind);
    assert Outstanding(h) == [job] + h.queue.jobs;
    CountPositive(h.queue.jobs, kind);
  }

  lemma ExecuteMessages(c: Context, name: string, h: Host, job: Job, outcome: Outcome)
    requires HostOk(c, name, h) && h.worker == Holding(job)
    requires IsKind(job, GET_MESSAGES) && outcome.Replied?
    ensures HostOk(c, name, Executed(h, job, outcome))
  {
    var h' := Executed(h, job, outcome);
    assert job in Outstanding(h);
    var k := |h.delivered|;
    assert h.log[..k] == h.delivered;
    AboveIsRest(h.log, k);
    assert h.delivered + h.log[k..] == h.log;
    assert h'.delivered == h.log;
    OnlyInHand(h, job, GET_MESSAGES);
    assert h' == h.(worker := h'.worker, delivered := h.log);
    assert h'.worker == Ran(Periodic(GET_MESSAGES, Seqno(LastSeqno(h.log))));
    hide Above;
    MessagesExecuted(c, name, h, job, h');
  }

  /** The job in hand has become one that carries the new cursor. */
  lemma MessagesExecuted(c: Context, name: string, h: Host, job: Job, h': Host)
    requires HostOk(c, name, h) && h.worker == Holding(job) && IsKind(job, GET_MESSAGES)
    requires h' == h.(worker := Ran(Periodic(GET_MESSAGES, Seqno(LastSeqno(h.log)))), delivered := h.log)
    requires forall j <- h.queue.jobs :: !IsKind(j, GET_MESSAGES)
    ensures HostOk(c, name, h')
  {
    hide OperationsFirst, LogOk, LastSeqno;
    assert job in Outstanding(h);
    forall k: Kind ensures Count(Outstanding(h'), k) == Count(Outstanding(h), k) {
      CountReplace(job, h'.worker.job, h.queue.jobs, k);
    }
    CountPositive(Outstanding(h'), GET_MESSAGES);
    assert h'.worker.job in Outstanding(h');
    forall j <- Outstanding(h') ensures CarriesCursor(j, h'.delivered) {
      if j in h.queue.jobs {
        assert !IsKind(j, GET_MESSAGES);
      }
    }
  }

  lemma ExecuteOther(c: Context, name: string, h: Host, job: Job, outcome: Outcome)
    requires HostOk(c, name, h) && h.worker == Holding(job)
    requires !(IsKind(job, GET_MESSAGES) && outcome.Replied?)
    ensures HostOk(c, name, Executed(h, job, outcome))
  {
    var h' := Executed(h, job, outcome);
    forall k: Kind ensures Count(Outstanding(h'), k) == Count(Outstanding(h), k) {
      CountReplace(job, h'.worker.job, h.queue.jobs, k);
    }
    assert job in Outstanding(h);
    forall j <- Outstanding(h') ensures CarriesCursor(j, h'.delivered) {
      if j in h.queue.jobs {
        assert j in Outstanding(h);
      }
    }
  }

  /** The context after post-execution; an exception leaves it as it was. */
  function PostContext(c: Context, name: string, job: Job, now: int): Context
    requires job.Periodic?
  {
    match PostExecuted(c, name, job, now)
    case Some(c') => c'
    case None => c
  }

  lemma FinishPeriodic(c: Context, name: string, h: Host, job: Job, now: int)
    requires HostOk(c, name, h) && h.worker == Ran(job) && job.Periodic?
    ensures HostOk(PostContext(c, name, job, now), name, h.(worker := Waiting))
  {
    var h' := h.(worker := Waiting);
    assert Outstanding(h') == h.queue.jobs;
    OnlyInHand(h, job, job.kind);
    forall k: Kind
      ensures Count(Outstanding(h), k) == Count(Outstanding(h'), k) + (if k == job.kind then 1 else 0)
    {
      CountConcat([job], h.queue.jobs, k);
      assert Count([job], k) == (if k == job.kind then 1 else 0) + Count([job][1..], k);
    }
    forall j <- Outstanding(h') ensures CarriesCursor(j, h'.delivered) {
      assert j in Outstanding(h);
    }
    assert job in Outstanding(h);
  }

  lemma FinishOther(c: Context, name: string, h: Host, job: Job)
    requires HostOk(c, name, h) && h.worker == Ran(job) && !job.Periodic?
    ensures HostOk(c, name, h.(worker := Waiting))
  {
    var h' := h.(worker := Waiting);
    assert Outstanding(h') == h.queue.jobs;
    forall k: Kind ensures Count(Outstanding(h), k) == Count(Outstanding(h'), k) {
      CountConcat([job], h.queue.jobs, k);
      assert [job][1..] == [];
    }
    forall j <- Outstanding(h') ensures CarriesCursor(j, h'.delivered) {
      assert j in Outstanding(h);
    }
  }

  /** A host notices nothing of changes to other hosts' entries, of losing its own, or of the shutdown. */
  lemma Frame(c: Context, c': Context, name: string, h: Host)
    requires HostOk(c, name, h)
    requires c.shutdown ==> c'.shutdown
    requires name in c'.tasks && name in c'.cursors && !c'.shutdown ==>
      name in c.tasks && name in c.cursors && c'.cursors[name] == c.cursors[name]
      && forall k: Kind :: c'.tasks[name][k].pending == c.tasks[name][k].pending
    ensures HostOk(c', name, h)
  {
  }

  // ----- the whole system, one step -----

  /** Only the named host changes, and the context changes for no other host. */
  lemma OneHost(s: System, t: System, name: string)
    requires JobsOk(s)
    requires t.hosts.Keys == s.hosts.Keys && t.phase == s.phase
    requires forall n <- s.hosts.Keys :: n != name ==> t.hosts[n] == s.hosts[n]
    requires s.context.shutdown == t.context.shutdown
    requires t.context.tasks.Keys == s.context.tasks.Keys && t.context.cursors.Keys == s.context.cursors.Keys
    requires forall n <- s.context.tasks.Keys :: n != name ==> t.context.tasks[n] == s.context.tasks[n]
    requires forall n <- s.context.cursors.Keys :: n != name ==> t.context.cursors[n] == s.context.cursors[n]
    requires name in t.hosts ==> HostOk(t.context, name, t.hosts[name])
    requires s.phase == Controlled(name) && name in t.hosts ==>
      Outstanding(t.hosts[name]) == [] && t.hosts[name].delivered == []
    ensures JobsOk(t)
  {
    forall n <- t.hosts.Keys ensures HostOk(t.context, n, t.hosts[n]) {
      if n != name {
        Frame(s.context, t.context, n, s.hosts[n]);
      }
    }
  }
}
