# A verified model of woinc

woinc controls BOINC clients. This project models the parts of it whose correctness is spread over
several functions, threads or machines, and proves properties of them for every input and every run.
`dafny verify dfyconfig.toml` checks all of it.

- **Periodic scheduling.** A scheduler thread ticks over every host and its nine periodic tasks, and
  hands due jobs to the host's queue; one worker thread per host takes jobs from the queue, talks to the
  client and reports back, which clears the task's pending flag and stores message and notice numbers.
  The controller adds and removes hosts, pushes operations at the front of the queue and makes tasks due.
  `JobQueue`, `SchedulerContext`, `HostController`, `PeriodicJob`, `Configuration` and `Controller` are the
  objects, changed in place. `Protocol` is the whole system as atomic steps, one per critical section, in
  any interleaving; the methods of the objects are proved to be these steps or runs of them. The main
  results (`ProtocolTheorems`, `ProtocolNames`, `ProtocolProgress`, `ProtocolQueues`, `ProtocolKeys`,
  `JobQueues`) speak of every run: exactly-once, in-order delivery of messages; one outstanding job per task;
  spacing, and that a due task can be scheduled; operations first; no job lost; no failing lookup; a shutdown
  that gets through and leaves nothing.
- **MD5.** The unrolled block loop against a table-driven reading of RFC 1321, for every message and both
  byte orders, and two known answers.
- **Table updates.** The in-place diff that turns the shown rows into new ones: equal to replacement for
  any comparator, followed by a view event by event, minimal on sorted lists; and two of its users.
- **Requests.** The node tree, its printer and a reader for the printed subset of XML; the preferences
  writer and parser; the read-modify-write of the client's configuration.
- **Statistics.** Carry-forward sums of sparse series, and the selection state that a list widget mirrors.
- **Replies.** The framing of a reply by a terminating byte.

The proofs about a whole run go through an invariant of single steps (`KeyChain`, `Good`), so each of
them covers every reachable state, also those between the sub-steps of adding and removing a host.

## What the proofs brought to light

- A worker reports its finished job under the name its client knows, and that is the url the client was
  connected to (`libui/src/host_controller.cc:29`, `libui/src/client.cc:27-31`), while the scheduler files
  its tasks under the name the host was added with. A report settles the job's own task if and only if the
  two are the same (`SettledIffNamedByUrl`). If the url is unknown as a name, the first report of a periodic
  job throws out of the worker thread, which ends the whole process (`FailsIffUrlUnknown`,
  `MisnamedHostFails`). If it is the name of another host, that host can lose messages, and its pending flags
  can be cleared while their jobs are still queued; this is the only way in which messages are lost or
  repeated (`ExactlyOnceIffNamesApart`) or flags and jobs disagree (`PendingIffNamesApart`).
- Removing a host while one of its periodic jobs is running ends the process in the same way
  (`HostRemovedWhileRunningFails`, `RemoveHost`); for hosts named by their urls, nothing else does
  (`FailsIffRemovedWhileRunning`).
- The exclusive applications of a configuration are written under the tag `exclusive__app`, so they are
  not read back, and each save adds them once more (`ListsReadBackIff`, `SavingTwiceIff`).
- Each daily mask of the preferences lets the times of the other map through for the days it selects
  (`DailyMaskIsObeyedIff`).
- The printer escapes nothing, so a content that looks like markup or like a reference is read as that, and a
  carriage return becomes a line feed; `ContentSurvivesIff` says for every content whether it survives.
- The end of a reply is looked for at the end of a chunk only, so whether a reply that contains 0x03 is
  cut depends on how it arrives (`DeliveredIff`).
- Statistics are filed under project names although projects are compared by url, so of two projects with
  one name only the first is shown (`TwinIsNotShown`); all are shown if and only if no two different statistics
  fall under one name (`AllShownIffNoCollision`).
- The equality of task rows leaves some fields out, which then stay old (`OldProcessIsShown`): the shown
  tasks are exactly the new ones if and only if the update meets no two tasks that agree in the compared fields
  only (`StaleDetailsIff`, `SortedStaleDetailsIff`).

## Reading the model

Times are integers (milliseconds), credits integers, and preference values fixed-point numbers of
millionths, which is what `std::to_string` writes for a double. What comes from outside is a parameter:
the outcome of an RPC, the client's message log (which grows with increasing numbers, and which
`get_messages` answers from), the clock, what a socket hands over, the order in which a map is walked,
comparators and row equalities. Each host controller has a client and a message log of its own, also when two
are added with one url, and ports are left out. An exception that leaves a thread ends the process, so the
system takes no step after it (`failed`). Records whose fields are written tag by tag are maps from the tag. In
`PreferencesReader`, `None` stands for an exception and for the two cases in which the parser has no
defined result: a start hour without an end hour, which violates an assertion, and times without a day.
Numbers outside of the days of the week become the unknown day, as in a build without debug assertions.

## Model

| member | source | states |
|---|---|---|
| `JobQueues.JobQueue.PushAt` | libui/src/job_queue.cc:72-92 | A job goes to the asked end of an open queue; a closed queue refuses it and stays as it is. |
| `JobQueues.JobQueue.Pop` | libui/src/job_queue.cc:45-61 | The front job is handed out and removed; a closed queue hands out nothing and keeps what it has. |
| `JobQueues.QueueShape` | libui/src/job_queue.cc:37-61 | After every history of calls the queue is the unpopped front-pushed jobs, newest first, followed by the unpopped back-pushed ones, oldest first (a stack and a list kept apart as the reference). |
| `JobQueues.Conservation` | libui/src/job_queue.cc:45-92 | In every history the accepted jobs are, as a multiset, the popped jobs and those still queued. |
| `JobQueues.NothingAfterShutdown` | libui/src/job_queue.cc:45-92 | After a shutdown no call of any history accepts or hands out a job. |
| `JobQueues.OperationsOvertake` | libui/src/job_queue.cc:37-61 | When a pop hands out a job that was pushed at the back, every job pushed at the front before that pop has already been handed out. |
| `JobQueues.FrontGoesFirst` | libui/src/job_queue.cc:37-61 | In every history, a job pushed at the front of an open queue still waits ahead of all jobs that were queued then, from whichever end, or a pop has taken it while they all waited behind it. |
| `SchedulerContexts.SchedulerContext.AddHost` | libui/src/periodic_tasks_scheduler.cc:41-57 | Nine idle tasks and zero sequence numbers for a new host; entries that exist are kept. |
| `SchedulerContexts.SchedulerContext.HandlePostExecution` | libui/src/periodic_tasks_scheduler.cc:81-106 | Nothing after shutdown; an exception (and no change) for an unknown host; else the task is idle with this completion time and the message or notice number is stored. |
| `SchedulerContexts.SchedulerContext.RescheduleNow` | libui/src/periodic_tasks_scheduler.cc:65-71 | The task is due at once but its pending flag stays; an exception for an unknown host. |
| `SchedulerContexts.SchedulerContext.Tick` | libui/src/periodic_tasks_scheduler.cc:132-142 | One pass of the nested loops, for any iteration order: exactly the due tasks of the hosts that are to be scheduled become pending and are emitted, in order, with the payload of that moment. |
| `ProtocolTick.TickSchedulesIff` | libui/src/periodic_tasks_scheduler.cc:134-141 | For each task of each host in the order: the tick emits it and makes it pending if and only if the host is to be scheduled, the task is not pending, and it never ran or its last completion is at least the interval ago; its job carries the number or the option of that moment. |
| `ProtocolTick.TickInOrder` | libui/src/periodic_tasks_scheduler.cc:134-141 | The jobs of a tick are emitted host by host in the order of the map, and for each host in the order of the tasks. |
| `SchedulerContexts.SchedulerContext.Schedule` | libui/src/periodic_tasks_scheduler.cc:149-165 | The task is pending and the job carries the stored message number, notice number or the active-only flag. |
| `ProtocolTick.TickIsRun` | libui/src/periodic_tasks_scheduler.cc:132-165 | A tick refines the step system: in every state its emitted jobs can be scheduled one step at a time, and that run leads to the tick's task states and appends each host's jobs to its queue. |
| `HostControllers.PeriodicJob.Execute` | libui/src/jobs.cc:82-169 | A failed call hands over nothing and leaves the payload; a successful GetMessages hands over the reply and, if it is not empty, moves the payload to its last number; GetNotices moves it likewise; every other task leaves it. For every host this is what the system's step does. |
| `HostControllers.HostController.TakeJob` | libui/src/host_controller.cc:33-36 | The loop head takes the front job or, on a closed queue, ends the worker; it is the step the system takes for it. |
| `HostControllers.HostController.RunJob` | libui/src/jobs.cc:65-70 | Running the job in hand changes the worker's job and what was delivered exactly as `Executed` says, for every kind of job. |
| `ProtocolProgress.FailedCallHandsOverNothing` | libui/src/jobs.cc:104-122 | In every run a failed call changes nothing but that its worker goes on to report the same job. |
| `ProtocolProgress.CallIs` | libui/src/jobs.cc:82-169 | What each kind of job and outcome does to the worker's job and to what was delivered. |
| `Controllers.Controller.AddHost` | libui/src/controller.cc:229-257 | Rejects empty names, a shut-down controller and a known host, in this order, without any change; else it is the run of the three sub-steps, and no assertion of the configuration can fail. |
| `Controllers.RefusedIff` | libui/src/controller.cc:286-341 | Which call on a host is refused with what: a missing name first, then a shut-down controller, then an unknown host, and never anything else. |
| `Controllers.AddRefusedIff` | libui/src/controller.cc:229-240 | Which addition is refused with what: a missing name or url first, then a shut-down controller, then a known host. |
| `Controllers.Controller.RemoveHost` | libui/src/controller.cc:286-293 | Rejections without change; else the whole removal, with the wait for the worker: a run that leaves the host neither a controller nor a configuration and changes no other host. It throws if and only if the worker has a periodic job in hand that can no longer be reported, as its client's url is this host's name or no host's. |
| `Controllers.Controller.JoinWorker` | libui/src/host_controller.cc:33-54 | A worker at a closed queue ends within three steps of its own: it finishes and reports the job in hand and takes no other; this throws if and only if the job is periodic, its url is unknown to the scheduler and there was no shutdown. |
| `Controllers.Controller.Shutdown` | libui/src/controller.cc:196-211 | From every idle state, whatever the call in flight of each host comes to: the shutdown is a run of the system in which nothing fails, and leaves no host, no task and no configuration. |
| `Controllers.Controller.FinishRemoval` | libui/src/controller.cc:635-641 | When the worker has been joined, the controller is erased and the configuration forgets the host, which it still knew. |
| `Controllers.Controller.Operation` | libui/src/controller.cc:343-399 | An operation is pushed at the front before its refresh is made due; neither lookup fails. |
| `Controllers.Controller.ActiveOnlyTasks` | libui/src/controller.cc:331-341 | The option is stored and the task list made due at once; neither lookup fails. |
| `Controllers.Controller.RescheduleNow` | libui/src/controller.cc:320-329 | Rejections without change; else the run of one `Reschedule` step. |
| `ProtocolKeys.KeyChainOverRuns` | libui/src/controller.cc:185-257 | In every reachable state, between all sub-steps: the keys of the two scheduler maps are equal and within the host controllers, these are within the configuration, and no host the scheduler knows has a closed queue. |
| `ProtocolKeys.SchedulingNeverFails` | libui/src/controller.cc:185-190 | In every run every scheduling step finds its host everywhere it looks, and its job ends up at the back of an open queue. |
| `ProtocolKeys.StepKeys` | libui/src/controller.cc:196-257 | Every step keeps the chain, and only a post-execution can fail. |
| `ProtocolTheorems.ExactlyOnceInOrder` | libui/src/jobs.cc:104-122 | In every run in which no host is added under the url of another one, failed calls, interleaved jobs and failing threads included, the concatenation of all message batches delivered for a host is a prefix of the client's log: nothing lost, repeated or reordered. |
| `ProtocolNames.ExactlyOnceIffNamesApart` | libui/src/periodic_tasks_scheduler.cc:81-106 | For every set of host additions: all runs that add hosts only so deliver every host's messages exactly once and in order if and only if no host is added under the url of another one. |
| `ProtocolNames.LosesMessage` | libui/src/periodic_tasks_scheduler.cc:101-104 | For any two hosts of which one is at the other's url there is a run in which the other loses a message, because it is asked for what is above a foreign number. |
| `ProtocolTheorems.DeliveryCatchesUp` | libui/src/jobs.cc:104-122 | A successful GetMessages in any run delivers everything up to the end of the log. |
| `ProtocolTheorems.PendingIffOutstanding` | libui/src/periodic_tasks_scheduler.cc:134-165 | In every run in which no host is added under the url of another one, a host has at most one outstanding job per task and at most nine periodic ones, and while it is scheduled and no thread has failed, a task is pending if and only if exactly one job of it is queued or in hand. |
| `ProtocolNames.PendingIffNamesApart` | libui/src/periodic_tasks_scheduler.cc:81-106 | For every set of host additions: in all runs that add hosts only so, each task has at most one outstanding job and is pending exactly when it has one, if and only if no host is added under the url of another one. |
| `ProtocolNames.ClearsFlag` | libui/src/periodic_tasks_scheduler.cc:97-98 | For any two hosts of which one is at the other's url there is a run in which the other's task is not pending while its job is still queued. |
| `ProtocolTheorems.OperationsRunFirst` | libui/src/controller.cc:343-399 | In every run, however its hosts are named, when a worker takes a periodic job no operation is waiting in its queue. |
| `ProtocolQueues.QueueIsHistory` | libui/src/job_queue.cc:37-92 | In every run of the system, a host's queue, and what its workers have taken from it, are those of the history of calls that the steps made on it since the host was added. |
| `ProtocolQueues.JobsConserved` | libui/src/host_controller.cc:33-36 | In every run, the jobs accepted for a host since it was added are, as a multiset, those its workers have taken and those still queued. |
| `ProtocolQueues.OperationGoesFirst` | libui/src/controller.cc:343-399 | In every run, from the moment the controller is asked for an operation: for as long as the host stays, the operation is queued ahead of everything that waited then, or the worker took it while all of that still waited. |
| `ProtocolQueues.OperationTakenBeforePeriodic` | libui/src/controller.cc:343-399 | In every run, a periodic job that a worker takes after the controller was asked for an operation is taken after that operation. |
| `ProtocolTheorems.Spacing` | libui/src/periodic_tasks_scheduler.cc:134-141 | In every run a task is scheduled again no earlier than its completion plus the cached interval, also when the tick's time is older than the completion, unless it was made due in between. |
| `ProtocolProgress.DueAgain` | libui/src/periodic_tasks_scheduler.cc:134-141 | The converse of spacing: once a job of a task has been reported, and while the task is neither scheduled nor reported again, a tick at the completion time plus the cached interval, or later, can schedule it. |
| `ProtocolProgress.ScheduledIff` | libui/src/periodic_tasks_scheduler.cc:132-141 | In every state with the chain of keys, a task can be scheduled if and only if nothing failed or stopped, its host is known and to be scheduled, and it is idle and never ran or its interval is over. |
| `ProtocolProgress.RescheduledIsDue` | libui/src/periodic_tasks_scheduler.cc:65-71 | In every run, after a rescheduling of an idle task of any kind every tick finds it due, until it is scheduled or reported. |
| `ProtocolProgress.ReportStores` | libui/src/periodic_tasks_scheduler.cc:92-105 | A report of a known host's job leaves its task idle with the time of the report and stores the message or notice number it carries, and nothing else. |
| `ProtocolProgress.ScheduledJobIs` | libui/src/periodic_tasks_scheduler.cc:149-165 | In every run a scheduled job carries the message number, notice number or active-only option of that moment, goes to the back of its host's queue, and changes nothing else. |
| `ProtocolProgress.OptionIsCarried` | libui/src/periodic_tasks_scheduler.cc:159-160 | In every run, once the active-only option of a host has been set, every task list that is scheduled asks for what it says, until it is set again. |
| `ProtocolProgress.NothingScheduledWhenOff` | libui/src/periodic_tasks_scheduler.cc:135-136 | In every run, a host whose periodic tasks were switched off, or never switched on, has none scheduled until they are switched on. |
| `ProtocolProgress.NewIntervalIsUsed` | libui/src/periodic_tasks_scheduler.cc:122-127 | A new interval is the one the scheduler uses after its next refresh. |
| `ProtocolProgress.WorkersGoOn` | libui/src/host_controller.cc:33-54 | Every worker that has not ended can go on, or waits for a job at an open empty queue. |
| `ProtocolTheorems.SettledIffNamedByUrl` | libui/src/host_controller.cc:29-39 | A report of a job settles its task if and only if the host's name is the url it was connected to, because the client reports the url. |
| `ProtocolTheorems.MisnamedHostFails` | libui/src/host_controller.cc:29-39 | A concrete run: the first report of a host called alpha at 10.0.0.1 throws. |
| `ProtocolTheorems.FailsIffUrlUnknown` | libui/src/periodic_tasks_scheduler.cc:81-95 | In every run, however its hosts are named: a step throws if and only if it reports a periodic job, before the shutdown, under a url that the scheduler does not know as a host. |
| `ProtocolTheorems.HostRemovedWhileRunningFails` | libui/src/periodic_tasks_scheduler.cc:92-95 | A concrete run: a well-named host is removed while its job runs, and the report throws. |
| `ProtocolTheorems.FailsIffRemovedWhileRunning` | libui/src/periodic_tasks_scheduler.cc:84-102 | For runs whose hosts are named by their urls: a step throws if and only if it reports a periodic job of a host that is being removed, before shutdown. |
| `ProtocolTheorems.NothingFailsAfterStop` | libui/src/periodic_tasks_scheduler.cc:84-85 | In every run, however its hosts are named, no step fails once the controller has been stopped. |
| `ProtocolRuns.StepGood` | libui/src/periodic_tasks_scheduler.cc:41-165 | Every step of the system keeps the invariant of keys, outstanding jobs and messages, and what is left of it when the step fails. |
| `ProtocolJobs.AboveIsRest` | libui/src/jobs.cc:104-116 | Asking for what is above the last delivered number returns exactly the undelivered rest of an increasing log. |
| `Md5.Digested` | lib/src/md5.cc:98-252 | For every input and both byte orders the result is the hexadecimal text of the digest of RFC 1321. |
| `Md5Known.EmptyDigest` | lib/src/md5.cc:98-252 | The digest of the empty message is that of RFC 1321, appendix A.5. |
| `Md5Known.AbcDigest` | lib/src/md5.cc:98-252 | So is that of the message abc. |
| `Md5Known.BlocksChain` | lib/src/md5.cc:137-224 | Longer messages are digested block after block, each from the registers of those before it. |
| `Md5Spec.CircularMovesBits` | lib/src/md5.cc:67-69 | For every word and shift, the rotation moves bit i to bit i + s modulo 32. |
| `Md5.Round1` | lib/src/md5.cc:149-165 | The sixteen unrolled lines of round 1 are steps 1 to 16 of the table-driven recursion. |
| `Md5.Round2` | lib/src/md5.cc:167-183 | Likewise round 2 and steps 17 to 32. |
| `Md5.Round3` | lib/src/md5.cc:185-201 | Likewise round 3 and steps 33 to 48. |
| `Md5.Round4` | lib/src/md5.cc:203-219 | Likewise round 4 and steps 49 to 64. |
| `Md5.MixAgrees` | lib/src/md5.cc:51-65 | The four auxiliary functions are the bitwise choices and parities of RFC 1321, section 3.4, for all words. |
| `Md5.Update` | lib/src/md5.cc:137-224 | One iteration of the block loop is the block step of RFC 1321. |
| `Md5.LoadBlock` | lib/src/md5.cc:142-147 | In both byte orders the sixteen words of a block are its little-endian words. |
| `Md5.TransformedLoad` | lib/src/md5.cc:44-49 | Reversing the bytes of a word loaded on a big-endian machine gives its little-endian value. |
| `Md5.StoredTransformed` | lib/src/md5.cc:234-244 | Reversing a word before storing it on a big-endian machine stores its little-endian bytes. |
| `Md5.PaddedBuffer` | lib/src/md5.cc:99-125 | The buffer is the padded message of RFC 1321, sections 3.1 and 3.2, in both byte orders. |
| `Md5.HexTextReadsBack` | lib/src/md5.cc:246-251 | The text has two lowercase hexadecimal digits per byte, from which the bytes can be read back. |
| `Md5Spec.PaddingIsLeast` | lib/src/md5.cc:101-110 | The padded length is the least multiple of 64 that is at least the length plus nine. |
| `Md5Spec.PaddingIsInvertible` | lib/src/md5.cc:112-125 | Every message shorter than 2^61 bytes can be recovered from its padding. |
| `TableDiff.TabModel.Update` | ui/qt/tabs/tab_model_updater.h:29-123 | The in-place loop ends, its assertions hold, and its rows and row events are those of the recursive definition. |
| `TableDiff.EqualsReplacement` | ui/qt/tabs/tab_model_updater.h:29-123 | For every old list, new list, comparator and row equality, sorted or not: the result has the new length and is row-wise equal to the new list under the row equality. |
| `TableDiff.ViewInStep` | ui/qt/tabs/tab_model_updater.h:46-119 | A view that replays the row events, reading rows only at each event, equals the model's rows after every event and ends with the result. |
| `TableDiffMinimal.SortedUpdateIsMinimal` | ui/qt/tabs/tab_model_updater.h:43-120 | On strictly sorted lists the events remove exactly the rows only in the old list, insert exactly those only in the new one, and signal a change for exactly the common keys whose rows differ. |
| `TableDiffExact.ExactIffNoneDiffer` | ui/qt/tabs/tab_model_updater.h:29-123 | For all lists, comparators and row equalities: the result is exactly the new list if and only if the update meets no two rows that are equal for it and not the same. |
| `TableDiffExact.SortedExactIff` | ui/qt/tabs/tab_model_updater.h:29-123 | On strictly sorted lists: if and only if any two rows of the lists that compare equal and are equal for the update are the same. |
| `Tabs.EventsModel.AppendEvents` | ui/qt/tabs/events_tab.cc:126-140 | The rows become the last 2000 of the old rows followed by the new events, and a view stays in step. |
| `Tabs.WindowOverRuns` | ui/qt/tabs/events_tab.cc:126-140 | After any sequence of batches the tab shows exactly the last 2000 of all events, or all of them. |
| `Tabs.AppendIsMinimal` | ui/qt/tabs/events_tab.cc:126-140 | When the events' numbers increase, a view is told exactly which rows fall out at the top and which appear at the bottom, and of no change. |
| `Tabs.TasksShown` | ui/qt/types.cc:85-96 | For every comparator the compared fields of every shown task are the new ones. |
| `Tabs.StaleDetailsIff` | ui/qt/types.cc:85-96 | For all lists of tasks and comparators: the shown tasks are exactly the new ones if and only if the update meets no two tasks that agree in the compared fields and not in those the equality leaves out. |
| `Tabs.SortedStaleDetailsIff` | ui/qt/types.cc:85-96 | On strictly sorted lists: if and only if no old and new task compare equal, agree in the compared fields and differ in the others. |
| `Tabs.OldProcessIsShown` | ui/qt/types.cc:85-96 | A concrete update after which a restarted task is shown with its old process id. |
| `Xml.EditableNode.Index` | lib/src/xml.cc:40-57 | The first child with the tag, or a new last one; no other child changes. |
| `Xml.EditableNode.SetChild` | lib/src/xml.cc:40-57 | Setting the content of `n[tag]` changes the content of that one child. |
| `Xml.EditableNode.RemoveAll` | lib/src/xml.cc:59-61 | Exactly the children with the tag are gone; the others keep their order. |
| `Xml.FindChild` | lib/src/xml.cc:63-71 | The position of the first child with the tag, or the end. |
| `Xml.PrintedExample` | lib/src/xml.cc:73-98 | The text of a tree with every case of the printer in it: content before children, leaf, empty element, reset indentation. |
| `XmlReader.ParseNode` | lib/src/xml.cc:104-116 | Elements become children in order, and the content is the last piece of character data. |
| `XmlReader.LastTextCounts` | lib/src/xml.cc:104-116 | The content is the last piece of character data, or the one from before if there is none. |
| `XmlRoundTrip.PrintReadRoundTrip` | lib/src/xml.cc:73-116 | For every tree with proper names, and contents on leaves only that survive, at any indentation and with any placement of the reset flag: reading the text and converting it gives the tree back. |
| `XmlRoundTrip.PrintIsInjective` | lib/src/xml.cc:73-98 | Two such trees with the same text are the same up to the reset flags. |
| `XmlRoundTrip.ContentSurvivesIff` | lib/src/xml.cc:87-96 | Nothing is escaped: for every content, a leaf's content can be read back if and only if it has no markup, no zero byte, no carriage return and no reference, and is empty or not only white space. |
| `XmlRoundTrip.DecodedIffLiteral` | lib/src/xml.cc:125-130 | Character data is read as it was written if and only if it holds neither a carriage return nor anything that is replaced as a reference. |
| `Preferences.WritePreferences` | lib/src/rpc_command.cc:714-805 | The masked writer, day loop included, builds exactly the described node: each scalar tag at most once in the fixed order, then one node per selected day in ascending order. |
| `PreferencesText.WrittenTimes` | lib/src/rpc_command.cc:714-805 | The root and the period and hours in the mask, under the tags as they are sent. |
| `PreferencesText.WrittenLimits` | lib/src/rpc_command.cc:714-805 | A limit in the mask is sent with its value; of the others one is sent as 100.000000, three as 0.000000, and the rest not. |
| `PreferencesText.WrittenFlags` | lib/src/rpc_command.cc:714-805 | A flag in the mask is sent as 1 or 0, and no other flag is. |
| `PreferencesText.WrittenInOrder` | lib/src/rpc_command.cc:714-805 | First the scalar fields in the order of their tags, then one node for each day of either selected map, in ascending order. |
| `PreferencesText.WrittenDay` | lib/src/rpc_command.cc:777-804 | The node of a day: its number, and the hours of each map that has it. |
| `PreferencesReader.ReadPreferences` | lib/src/rpc_parsing.cc:594-649 | The parser on every node, with its exceptions: missing numbers are skipped, missing flags are false, the first child of a tag counts, and the first entry of a day is kept. |
| `PreferencesReader.ReadDays` | lib/src/rpc_parsing.cc:626-649 | The loop visits every day node once, in order, from any position. |
| `PreferencesParsed.ParsedIffReadable` | lib/src/rpc_parsing.cc:594-649 | For every node: the parser has a result if and only if every number that is there can be read, and every day's span has its end and a day. |
| `PreferencesParsed.ParsedScalars` | lib/src/rpc_parsing.cc:594-624 | For every readable node: a flag is set if its first child is there and is not 0; a number under the first child with its tag is taken, and one that is not there stays as it was. |
| `PreferencesParsed.ParsedDays` | lib/src/rpc_parsing.cc:626-649 | For every day of every readable node: its times are those the record had, or else those of the first node that gives it a span; numbers that are no day give one to the unknown day. |
| `PreferencesRoundTrip.RoundTrip` | lib/src/rpc_parsing.cc:594-649 | For all preferences, masks and previous records: parsing what was written gives the masked fields, the defaults of the four limits that are always written, false for the other flags, the previous value otherwise, and the times of the days that either daily mask selects. |
| `PreferencesWire.TextRoundTrip` | lib/src/rpc_command.cc:720-805 | The same through the text: printed at any indentation and read back. |
| `PreferencesWire.DailyMaskIsObeyedIff` | lib/src/rpc_command.cc:777-804 | The days of either mask get both their times. A record's daily times obey their own mask if and only if it is set, or the other is not, or no day is in both maps. |
| `Numbers.DecimalRoundTrip` | lib/src/xml.h:84-86 | Every fixed-point number is read back from its six-decimals text. |
| `Numbers.IntRoundTrip` | lib/src/xml.h:80-82 | Every 32-bit number is read back from its text. |
| `CCConfig.MergeConfig` | lib/src/rpc_command.cc:536-627 | The read-modify-write: the options, the three lists and the log flags are edited in the fetched node; missing nodes are created. |
| `CCConfig.ReadLists` | lib/src/rpc_parsing.cc:390-440 | The lists of platforms and exclusive applications are the contents of their tags, in order. |
| `CCConfig.OptionsFit` | lib/src/rpc_command.cc:556-619 | The 48 scalar options have none of the tags of the lists, so what is said of every such table of tags holds for them. |
| `CCConfigTheorems.MergedParts` | lib/src/rpc_command.cc:549-553 | Every other child of the fetched `cc_config` is sent back unchanged and in order, and the two known children are the merged ones. |
| `CCConfigTheorems.UnknownOptionsSurvive` | lib/src/rpc_command.cc:549-619 | Every option that woinc neither writes nor removes survives unchanged and in order. |
| `CCConfigTheorems.UnknownFlagsSurvive` | lib/src/rpc_command.cc:621-623 | Every log flag without a requested value survives unchanged and in order. |
| `CCConfigTheorems.OptionsAreWritten` | lib/src/rpc_command.cc:556-607 | The first child of each scalar tag carries the requested value, and reads as it by the parser for its type. |
| `CCConfigTheorems.FlagsAreWritten` | lib/src/rpc_command.cc:621-623 | The first child of each log flag carries the requested value. |
| `CCConfigTheorems.ListsAfterSave` | lib/src/rpc_command.cc:609-619 | Platforms and GPU applications are exactly the requested ones, no `exclusive_app` is left, and the requested applications are appended under `exclusive__app`. |
| `CCConfigTheorems.ListsReadBackIff` | lib/src/rpc_command.cc:613-615 | Reading the saved lists gives the requested ones if and only if no exclusive application was requested. |
| `CCConfigTwice.SavingTwiceIff` | lib/src/rpc_command.cc:536-624 | Saving the same configuration again changes nothing if and only if it has no exclusive applications. |
| `CCConfigWire.SavedTextRoundTrip` | lib/src/rpc_command.cc:536-627 | For every fetched configuration that can be printed and every requested one whose texts survive: the printed result of the save is read back as the merged tree. |
| `CCConfigWire.SavedTextSays` | lib/src/rpc_command.cc:556-623 | So in the text that is sent every scalar option, every log flag and the lists of platforms and GPU applications read as requested, and the list of exclusive applications as empty. |
| `CCConfigWire.OptionsAreNames` | lib/src/rpc_command.cc:556-607 | All 48 tags of scalar options can be printed as names. |
| `Statistics.SumStats` | ui/qt/tabs/statistics_tab.cc:161-180 | The sum has the days of all series, and on each the sum of what every series carries there: its value at the latest known day not after it, else its first value. |
| `Statistics.TotalConcat` | ui/qt/tabs/statistics_tab.cc:169-177 | The sum of two groups of series is the sum of the two sums. |
| `Statistics.TotalOfOne` | ui/qt/tabs/statistics_tab.cc:169-177 | A single series sums to what it carries. |
| `Statistics.TotalInAnyOrder` | ui/qt/tabs/statistics_tab.cc:161-180 | The order of the projects does not matter. |
| `Statistics.AddSeries` | ui/qt/tabs/statistics_tab.cc:169-177 | The ascending walk with one carried value adds the carried value to every day. |
| `Statistics.SumGrows` | ui/qt/tabs/statistics_tab.cc:161-180 | If no series ever shrinks, their sum does not, however sparse and uneven they are. |
| `StatisticsState.TabState.UpdateProjects` | ui/qt/tabs/statistics_tab.cc:229-249 | Exactly the statistics of listed projects stay, as they were; lost names are dropped from both selections, and each is announced as removed exactly once. |
| `StatisticsState.TabState.UpdateStatistics` | ui/qt/tabs/statistics_tab.cc:251-284 | The statistics become those of listed projects; each lost name is deselected and announced once, then each new one, then the update. |
| `StatisticsState.TabState.ChangeProjectSelection` | ui/qt/tabs/statistics_tab.cc:286-299 | In the mode for one project the name, or none, becomes the selected project and the other selection is kept; in the other modes the names become the selection and the selected project is kept. It is announced once. |
| `StatisticsState.TabState.ChangeViewMode` | ui/qt/tabs/statistics_tab.cc:306-309 | The mode becomes the new one and both selections are kept. |
| `StatisticsState.SelectionIsReadIff` | ui/qt/tabs/statistics_tab.cc:286-299 | A selection is read back as it was made if and only if the mode takes several names, or it is at most one proper name. |
| `StatisticsState.TabState.SelectedProjectStatistics` | ui/qt/tabs/statistics_tab.cc:203-227 | While the selections are known, every lookup succeeds and the result is the selected part of the statistics. |
| `StatisticsState.StaysSelectedIff` | ui/qt/tabs/statistics_tab.cc:242-246 | A removed project stays selected if and only if it was selected twice. |
| `StatisticsState.WithoutIsRest` | ui/qt/tabs/statistics_tab.cc:242-246 | From a selection without duplicates exactly the lost names are dropped, and the others keep their order. |
| `StatisticsState.WithoutCounts` | ui/qt/tabs/statistics_tab.cc:242-246 | From any selection one occurrence of each lost name is dropped, and none of another. |
| `StatisticsRuns.FromTheStart` | ui/qt/tabs/statistics_tab.cc:203-299 | In every run both selections stay within the projects that have statistics, and a list driven by the signals alone has exactly one row for each of them. |
| `StatisticsRuns.MirrorStep` | ui/qt/tabs/statistics_tab.cc:647-659 | After every update, in whatever order names are announced, the list is in step. |
| `StatisticsRuns.FirstStatisticsWin` | ui/qt/tabs/statistics_tab.cc:258-264 | The statistics shown under a project name are the first that are filed under it. |
| `StatisticsRuns.AllShownIffNoCollision` | ui/qt/tabs/statistics_tab.cc:258-264 | For all projects and statistics: the statistics of every listed project are shown if and only if no two different ones are filed under one name. |
| `StatisticsRuns.TwinIsNotShown` | ui/qt/tabs/statistics_tab.cc:258-264 | Two listed projects with different urls and one name: the second one's statistics are not shown. |
| `Framing.ReceiveReply` | lib/src/rpc_connection.cc:120-153 | The receive loop over a 32 KiB buffer ends, and its result, output and unread rest are those of the recursive definition, for every sequence of receipts. |
| `Framing.DeliveredIff` | lib/src/rpc_connection.cc:120-147 | For every message and every way its bytes and the terminator arrive: the reply is exactly the message, complete at its last chunk, if and only if no earlier chunk ends in 0x03. |
| `Framing.DeliveredEveryWayIff` | lib/src/rpc_connection.cc:142-143 | A message survives every way of arriving if and only if it does not contain 0x03. |
| `Framing.CutShort` | lib/src/rpc_connection.cc:124-131 | A stream that ends or breaks before a chunk has ended in 0x03, wherever else that byte may be, is reported so, with exactly the received bytes written. |

## Left out

- Memory-model races: the scheduler's callback reads the map of host controllers without the controller's mutex, and the connecting thread keeps a plain pointer to a host controller that may have been removed; every critical section is one atomic step here.
- Client: its sockets and requests; a connection that fails is a worker that never starts.
- Handlers other than those for messages: an update of another task is not recorded, nor are the error, connection and authorization callbacks.
- Notices: what a client answers to a request for notices is arbitrary, so nothing is claimed about which notices are delivered.
- ProtocolTheorems.Spacing: the scheduler refreshes its copy of the intervals at any time instead of once a second, which covers more runs; removing a host also ends the claim.
- ProtocolTick.TickIsRun: other steps may come between the scheduling steps of one tick in the system, as they may for the workers in the program; for the controller, which waits for the scheduler's mutex, the system allows more than the program does.
- Time points: `time_point::min()` plus an interval is taken to be before every `now`; an interval so large that the sum overflows is not modelled.
- Controllers.Controller.RemoveHost: takes the host controllers as values, and while it waits for the worker no other thread takes a step (in `Protocol` they may); the removal by `async_remove_host`, which does not check that the host is known, is not modelled.
- Controllers.Controller.Operation: stands for the three operations that refresh a task; the checks of their further arguments and the futures they return are not modelled.
- Xml.EditableNode.Index: the children of a node are values, so a reference into a tree that outlives a change of its parent is not modelled; `MergeConfig` edits two nodes and puts them back.
- XmlReader.ReadDocument: the reader stands for the subset of XML that is printed, with character references, the five entities and the normalized ends of lines; attributes, comments, CDATA and the rest of pugixml are not modelled.
- Numbers: exponents, hexadecimal numbers, rounding of the seventh decimal and the range of a double are not modelled.
- PreferencesRoundTrip.RoundTrip: the fields of `WOINC_EXPOSE_FULL_STRUCTURES` builds are left out.
- CCConfig: coprocessors, excluded GPUs, ignored devices and proxy settings, which are read but never written, survive a save as unknown options.
- Statistics.SumStats: an empty series is excluded, as `begin()` of an empty map has no value; the charts themselves are not modelled.
- StatisticsState.TabState.ChangeProjectSelection: signals are a log; a slot that calls back into the state while it is being updated is not modelled.
- StatisticsRuns.FromTheStart: selections have no duplicates and come from the list; rows are a multiset, as the order of the list is the widget's.
- Tabs.EventsModel.AppendEvents: the difference of two sequence numbers is taken without overflow.
- Tabs.EventsModel.ForgetEvents: a change of the host empties the rows without a signal, so a view is not in step across it.
- Md5.Digested: the buffer length is taken without the wrap-around of `size_t`; the bit length does wrap at 2^64.
- Framing.ReceiveReply: sending the request, and an output stream that fails, are not modelled.
- Views, dialogs, menus, translations, the command line and the parsers of the other replies: they copy one field after the other, and no property spans several of them.
