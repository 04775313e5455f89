/**
  The objects around one host, in place: periodic jobs (libui/src/jobs.cc) and the host controller with
  its worker thread (libui/src/host_controller.cc). Their methods are the steps of `Protocol`, one call
  per critical section.
*/
module HostControllers {
  import opened JobQueues
  import opened Scheduling
  import opened Protocol

  class PeriodicJob {
    const kind: Kind
    var payload: Payload

    constructor (kind: Kind, payload: Payload)
      ensures this.kind == kind && this.payload == payload
    {
      this.kind := kind;
      this.payload := payload;
    }

    function Value(): Job
      reads this
    {
      Periodic(kind, payload)
    }

    /**
      The answers of the client come in: `messages` is its reply to a `get_messages`, `outcome` says
      whether the call succeeded. What the message handlers are given goes out.
    */
    method Execute(outcome: Outcome, messages: seq<Message>) returns (delivered: seq<Message>)
      requires kind == GET_MESSAGES ==> payload.Seqno?
      modifies this
      ensures delivered == if kind == GET_MESSAGES && outcome.Replied? then messages else []
      ensures !outcome.Replied? ==> payload == old(payload)
      ensures outcome.Replied? && kind == GET_MESSAGES ==>
                payload == if messages == [] then old(payload) else Seqno(messages[|messages| - 1].seqno)
      ensures outcome.Replied? && kind == GET_NOTICES ==>
                payload == if outcome.noticeSeqnos == [] then old(payload)
                           else Seqno(outcome.noticeSeqnos[|outcome.noticeSeqnos| - 1])
      ensures kind !in {GET_MESSAGES, GET_NOTICES} ==> payload == old(payload)
      ensures forall h: Host :: (kind == GET_MESSAGES ==> messages == Above(h.log, old(payload).seqno)) ==>
                Executed(h, old(Value()), outcome) == h.(worker := Ran(Value()), delivered := h.delivered + delivered)
    {
      delivered := [];
      if kind == GET_MESSAGES {
        if outcome.Replied? && messages != [] {
          payload := Seqno(messages[|messages| - 1].seqno);
          delivered := messages;
        }
      } else if kind == GET_NOTICES {
        if outcome.Replied? && outcome.noticeSeqnos != [] {
          payload := Seqno(outcome.noticeSeqnos[|outcome.noticeSeqnos| - 1]);
        }
      }
      assert forall h: Host :: h.delivered + [] == h.delivered;
    }
  }

  class HostController {
    const url: string
    const queue: JobQueue<Job>
    var worker: Worker
    var log: seq<Message>         // the client's message log
    var delivered: seq<Message>   // what the message handlers were given

    constructor (url: string)
      ensures Value() == Host(url, QueueState([], false), Unconnected, [], []) && fresh(queue)
    {
      this.url := url;
      queue := new JobQueue<Job>();
      worker, log, delivered := Unconnected, [], [];
    }

    function Value(): Host
      reads this, queue
    {
      Host(url, queue.State(), worker, log, delivered)
    }

    method Connect()
      requires worker == Unconnected
      modifies this`worker
      ensures Value() == old(Value()).(worker := Waiting)
    {
      worker := Waiting;
    }

    method Schedule(job: Job)
      modifies queue
      ensures Value() == old(Value()).(queue := Push(old(queue.State()), job, false))
    {
      queue.PushBack(job);
    }

    method ScheduleNow(job: Job)
      modifies queue
      ensures Value() == old(Value()).(queue := Push(old(queue.State()), job, true))
    {
      queue.PushFront(job);
    }

    /** The part of a shutdown before the worker is joined. */
    method Shutdown()
      modifies queue
      ensures Value() == old(Value()).(queue := old(queue.State()).(closed := true))
    {
      queue.Shutdown();
    }

    /** The head of the worker's loop. */
    method TakeJob()
      requires worker == Waiting && PopReady(queue.State())
      modifies this`worker, queue
      ensures if old(queue.closed) then worker == Exited && queue.State() == old(queue.State())
              else worker == Holding(old(queue.jobs)[0]) && queue.jobs == old(queue.jobs)[1..] && !queue.closed
      ensures forall s: System, host :: host in s.hosts && s.hosts[host] == old(Value()) ==>
                TakenStep(s, host) == WithHostAt(s, host, Value())
    {
      var job := queue.Pop();
      worker := match job case Some(j) => Holding(j) case None => Exited;
    }

    /**
      The body of the worker's loop up to the post-execution handler; the client answers with what is above
      the seqno.
    */
    method RunJob(outcome: Outcome)
      requires worker.Holding?
      requires worker.job.Periodic? && worker.job.kind == GET_MESSAGES ==> worker.job.payload.Seqno?
      modifies this`worker, this`delivered
      ensures Value() == Executed(old(Value()), old(worker).job, outcome)
      ensures worker.Ran?
      ensures !outcome.Replied? || !old(worker).job.Periodic? ==>
                worker.job == old(worker).job && delivered == old(delivered)
      ensures old(worker).job.Periodic? && old(worker).job.kind == GET_MESSAGES && outcome.Replied? ==>
                delivered == old(delivered) + Above(log, old(worker).job.payload.seqno)
    {
      var job := worker.job;
      if job.Periodic? {
        var periodic := new PeriodicJob(job.kind, job.payload);
        var messages := if job.kind == GET_MESSAGES then Above(log, job.payload.seqno) else [];
        var batch := periodic.Execute(outcome, messages);
        assert Executed(old(Value()), job, outcome)
            == old(Value()).(worker := Ran(periodic.Value()), delivered := old(delivered) + batch);
        worker, delivered := Ran(periodic.Value()), delivered + batch;
      } else {
        worker := Ran(job);
      }
    }
  }
}
