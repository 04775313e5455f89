/**
  The two-ended job queue of one host (libui/src/job_queue.cc).

  `JobQueue` is the queue as the source writes it. `Run` is the history of the calls made on a
  queue, and `Books` keeps a reference account of the same calls with two separate containers:
  a stack of the jobs pushed at the front and a first-in-first-out list of those pushed at the back.
*/
module JobQueues {
  import opened Wrappers

  datatype QueueState<J> = QueueState(jobs: seq<J>, closed: bool)

  function Push<J>(q: QueueState<J>, job: J, front: bool): QueueState<J> {
    if q.closed then q
    else if front then q.(jobs := [job] + q.jobs)
    else q.(jobs := q.jobs + [job])
  }

  /** The condition a caller of `pop` waits for. */
  predicate PopReady<J>(q: QueueState<J>) {
    q.jobs != [] || q.closed
  }

  function Popped<J>(q: QueueState<J>): Option<J>
    requires PopReady(q)
  {
    if q.closed then None else Some(q.jobs[0])
  }

  function AfterPop<J>(q: QueueState<J>): QueueState<J>
    requires PopReady(q)
  {
    if q.closed then q else q.(jobs := q.jobs[1..])
  }

  class JobQueue<J> {
    var jobs: seq<J>
    var closed: bool

    function State(): QueueState<J>
      reads this
    {
      QueueState(jobs, closed)
    }

    constructor ()
      ensures State() == QueueState([], false)
    {
      jobs := [];
      closed := false;
    }

    method PushFront(job: J)
      modifies this
      ensures State() == Push(old(State()), job, true)
    {
      PushAt(job, true);
    }

    method PushBack(job: J)
      modifies this
      ensures State() == Push(old(State()), job, false)
    {
      PushAt(job, false);
    }

    method PushAt(job: J, front: bool)
      modifies this
      ensures State() == Push(old(State()), job, front)
    {
      if !closed {
        if front {
          jobs := [job] + jobs;
        } else {
          jobs := jobs + [job];
        }
      }
    }

    /** `requires` is the predicate of the condition variable: the call blocks until it holds. */
    method Pop() returns (job: Option<J>)
      requires PopReady(State())
      modifies this
      ensures job == Popped(old(State())) && State() == AfterPop(old(State()))
    {
      job := None;
      if !closed {
        job := Some(jobs[0]);
        jobs := jobs[1..];
      }
    }

    method Shutdown()
      modifies this
      ensures State() == old(State()).(closed := true)
    {
      closed := true;
    }
  }

  // ----- whole histories of one queue -----

  datatype Call<J> = PushFront(job: J) | PushBack(job: J) | Pop | Shutdown

  function Init<J>(calls: seq<J>): seq<J>
    requires calls != []
  {
    calls[..|calls| - 1]
  }

  function Last<J>(calls: seq<J>): J
    requires calls != []
  {
    calls[|calls| - 1]
  }

  /** A pop that finds an open empty queue is still waiting and has no effect. */
  function Called<J>(q: QueueState<J>, call: Call<J>): QueueState<J> {
    match call
    case PushFront(job) => Push(q, job, true)
    case PushBack(job) => Push(q, job, false)
    case Pop => if PopReady(q) then AfterPop(q) else q
    case Shutdown => q.(closed := true)
  }

  /** What a call hands out. */
  function HandedOut<J>(q: QueueState<J>, call: Call<J>): seq<J> {
    if call.Pop? && PopReady(q) && Popped(q).Some? then [Popped(q).value] else []
  }

  /** The queue after a history of calls. */
  function Run<J>(calls: seq<Call<J>>): QueueState<J> {
    if calls == [] then QueueState([], false) else Called(Run(Init(calls)), Last(calls))
  }

  /** The jobs the calls took out of the queue, in order. */
  function Output<J>(calls: seq<Call<J>>): seq<J> {
    if calls == [] then [] else Output(Init(calls)) + HandedOut(Run(Init(calls)), Last(calls))
  }

  datatype Books<J> = Books(stack: seq<J>, fifo: seq<J>,
                            urgent: seq<J>, regular: seq<J>,
                            urgentDone: seq<J>, regularDone: seq<J>, closed: bool)

  /**
    The reference account. `urgent` and `regular` are the jobs accepted at the front and at the back,
    `urgentDone` and `regularDone` those handed out again, all in the order it happened.
  */
  function Account<J>(calls: seq<Call<J>>): Books<J> {
    if calls == [] then Books([], [], [], [], [], [], false)
    else Entered(Account(Init(calls)), Last(calls))
  }

  function Entered<J>(b: Books<J>, call: Call<J>): Books<J> {
    if b.closed then b
    else
      match call
      case PushFront(job) => b.(stack := [job] + b.stack, urgent := b.urgent + [job])
      case PushBack(job) => b.(fifo := b.fifo + [job], regular := b.regular + [job])
      case Shutdown => b.(closed := true)
      case Pop =>
        if b.stack != [] then b.(stack := b.stack[1..], urgentDone := b.urgentDone + [b.stack[0]])
        else if b.fifo != [] then b.(fifo := b.fifo[1..], regularDone := b.regularDone + [b.fifo[0]])
        else b
  }

  ghost predicate Balanced<J>(b: Books<J>) {
    && b.regular == b.regularDone + b.fifo
    && multiset(b.urgent) == multiset(b.urgentDone) + multiset(b.stack)
  }

  /**
    The queue is the unpopped front-pushed jobs, newest first, followed by the unpopped back-pushed ones,
    oldest first.
  */
  lemma {:induction false} QueueShape<J>(calls: seq<Call<J>>)
    ensures Run(calls).jobs == Account(calls).stack + Account(calls).fifo
    ensures Run(calls).closed == Account(calls).closed
  {
    if calls != [] {
      QueueShape(Init(calls));
    }
  }

  lemma PoppedBalanced<J>(b: Books<J>)
    requires Balanced(b) && !b.closed
    ensures Balanced(Entered(b, Pop))
  {
    if b.stack != [] {
      assert b.stack == [b.stack[0]] + b.stack[1..];
    } else if b.fifo != [] {
      assert b.fifo == [b.fifo[0]] + b.fifo[1..];
    }
  }

  lemma EnteredBalanced<J>(b: Books<J>, call: Call<J>)
    requires Balanced(b)
    ensures Balanced(Entered(b, call))
  {
    if call.Pop? && !b.closed {
      hide Balanced;
      PoppedBalanced(b);
    }
  }

  /** Back-pushed jobs leave in exactly the order they came; of the front-pushed ones none is lost or invented. */
  lemma {:induction false} BooksBalance<J>(calls: seq<Call<J>>)
    ensures Balanced(Account(calls))
  {
    if calls != [] {
      BooksBalance(Init(calls));
      EnteredBalanced(Account(Init(calls)), Last(calls));
    }
  }

  lemma EnteredDone<J>(b: Books<J>, q: QueueState<J>, call: Call<J>)
    requires q.jobs == b.stack + b.fifo && q.closed == b.closed
    ensures multiset(Entered(b, call).urgentDone) + multiset(Entered(b, call).regularDone)
         == multiset(b.urgentDone) + multiset(b.regularDone) + multiset(HandedOut(q, call))
  {
  }

  lemma {:induction false} OutputIsDone<J>(calls: seq<Call<J>>)
    ensures multiset(Output(calls)) == multiset(Account(calls).urgentDone) + multiset(Account(calls).regularDone)
  {
    if calls != [] {
      hide Entered, HandedOut;
      OutputIsDone(Init(calls));
      QueueShape(Init(calls));
      EnteredDone(Account(Init(calls)), Run(Init(calls)), Last(calls));
    }
  }

  /** Every accepted job has been handed out or is still queued, and nothing else ever is. */
  lemma Conservation<J>(calls: seq<Call<J>>)
    ensures multiset(Account(calls).urgent) + multiset(Account(calls).regular)
         == multiset(Output(calls)) + multiset(Run(calls).jobs)
  {
    QueueShape(calls);
    BooksBalance(calls);
    OutputIsDone(calls);
  }

  /** Once the queue was shut down, no further call adds or hands out a job. */
  lemma {:induction false} NothingAfterShutdown<J>(calls: seq<Call<J>>, more: seq<Call<J>>)
    requires Run(calls).closed
    ensures Run(calls + more) == Run(calls) && Output(calls + more) == Output(calls)
  {
    if more == [] {
      assert calls + more == calls;
    } else {
      assert Init(calls + more) == calls + Init(more);
      NothingAfterShutdown(calls, Init(more));
    }
  }

  /**
    Operations overtake: when a pop hands out a job that was pushed at the back, every job pushed at
    the front before that pop has already been handed out.
  */
  lemma OperationsOvertake<J>(calls: seq<Call<J>>)
    requires |Account(calls + [Pop]).regularDone| > |Account(calls).regularDone|
    ensures multiset(Account(calls).urgent) == multiset(Account(calls).urgentDone)
    ensures multiset(Account(calls).urgent) <= multiset(Output(calls))
  {
    assert Init(calls + [Pop]) == calls;
    BooksBalance(calls);
    OutputIsDone(calls);
  }

  /** The job is still queued, with some newer ones in front of it and everything older behind it. */
  ghost predicate Waits<J>(q: QueueState<J>, job: J, older: seq<J>) {
    exists at :: 0 <= at < |q.jobs| && [job] + older <= q.jobs[at..]
  }

  /** The next pop hands out the job, and nothing older has been handed out. */
  ghost predicate IsNext<J>(q: QueueState<J>, job: J, older: seq<J>) {
    !q.closed && [job] + older <= q.jobs
  }

  /**
    A job pushed at the front goes before every job that was queued then, from whichever end: in any
    continuation it still waits ahead of them all, or a pop has taken it while they all waited behind.
  */
  lemma {:induction false} FrontGoesFirst<J>(calls: seq<Call<J>>, job: J, more: seq<Call<J>>)
    requires !Run(calls).closed
    ensures var older, all := Run(calls).jobs, calls + [PushFront(job)];
            || Waits(Run(all + more), job, older)
            || exists i :: 0 <= i < |more| && more[i] == Pop && IsNext(Run(all + more[..i]), job, older)
  {
    var older, all := Run(calls).jobs, calls + [PushFront(job)];
    if more == [] {
      assert Init(all) == calls && all + more == all;
      assert Run(all).jobs[0..] == [job] + older;
    } else {
      var before := Init(more);
      FrontGoesFirst(calls, job, before);
      assert Init(all + more) == all + before && Last(all + more) == Last(more);
      if i :| 0 <= i < |before| && before[i] == Pop && IsNext(Run(all + before[..i]), job, older) {
        assert more[..i] == before[..i] && more[i] == Pop;
      } else {
        assert before == more[..|before|];
        WaitsOn(Run(all + before), Last(more), job, older);
      }
    }
  }

  lemma WaitsOn<J>(q: QueueState<J>, call: Call<J>, job: J, older: seq<J>)
    requires Waits(q, job, older)
    ensures Waits(Called(q, call), job, older) || (call.Pop? && IsNext(q, job, older))
  {
    var at :| 0 <= at < |q.jobs| && [job] + older <= q.jobs[at..];
    if !q.closed {
      match call
      case PushFront(j) => assert ([j] + q.jobs)[at + 1..] == q.jobs[at..];
      case PushBack(j) => assert (q.jobs + [j])[at..] == q.jobs[at..] + [j];
      case Shutdown =>
      case Pop =>
        if at > 0 {
          assert q.jobs[1..][at - 1..] == q.jobs[at..];
        } else {
          assert q.jobs[0..] == q.jobs;
        }
    }
  }
}
