/**
  Two users of the table update: the events tab with its bounded window (ui/qt/tabs/events_tab.cc) and
  the tasks tab, whose row equality looks at some of the fields only (ui/qt/types.cc, ui/qt/tabs/tasks_tab.cc).
*/
module Tabs {
  import opened TableDiff
  import opened TableDiffExact
  import opened TableDiffMinimal

  // ----- events -----

  datatype Event = Event(message: string, projectName: string, seqno: int, timestamp: int, userAlert: bool)

  const MAX_NUM_EVENTS := 2000

  function SameEvent(a: Event, b: Event): bool {
    && a.seqno == b.seqno && a.timestamp == b.timestamp && a.message == b.message
    && a.projectName == b.projectName && a.userAlert == b.userAlert
  }

  function BySeqno(a: Event, b: Event): int {
    a.seqno - b.seqno
  }

  function LastOf(events: seq<Event>, count: nat): seq<Event> {
    if |events| <= count then events else events[|events| - count..]
  }

  class EventsModel {
    const table: TabModel<Event>

    constructor ()
      ensures fresh(table) && table.rows == [] && table.signals == []
    {
      table := new TabModel();
    }

    /** A view that showed the rows before the call shows them after every signal, and ends with the window. */
    method AppendEvents(newEvents: seq<Event>)
      modifies table
      ensures table.rows == LastOf(old(table.rows) + newEvents, MAX_NUM_EVENTS)
      ensures table.signals
           == old(table.signals) + Signals([], old(table.rows), table.rows, BySeqno, SameEvent)
      ensures InStep(old(table.rows), table.signals[|old(table.signals)|..], table.rows)
    {
      var events := table.rows + newEvents;
      ghost var all := events;
      while |events| > MAX_NUM_EVENTS
        invariant LastOf(events, MAX_NUM_EVENTS) == LastOf(all, MAX_NUM_EVENTS)
      {
        events := events[1..];
      }
      IsReplacement(table.rows, events, BySeqno, SameEvent);
      ViewInStep([], table.rows, events, BySeqno, SameEvent);
      assert [] + table.rows == table.rows && [] + events == events;
      table.Update(events, BySeqno, SameEvent);
    }

    /** select_host and unselect_host: the rows go without a signal. */
    method ForgetEvents()
      modifies table
      ensures table.rows == [] && table.signals == old(table.signals)
    {
      table.rows := [];
      AppendEvents([]);
      EmptyTableIsSilent();
    }
  }

  lemma EmptyTableIsSilent()
    ensures Signals<Event>([], [], [], BySeqno, SameEvent) == []
  {
  }

  /** The rows after a sequence of batches, each appended as `AppendEvents` does. */
  function Shown(batches: seq<seq<Event>>): seq<Event> {
    if batches == [] then []
    else LastOf(Shown(batches[..|batches| - 1]) + batches[|batches| - 1], MAX_NUM_EVENTS)
  }

  function Joined(batches: seq<seq<Event>>): seq<Event> {
    if batches == [] then [] else Joined(batches[..|batches| - 1]) + batches[|batches| - 1]
  }

  /**
    Over every run: the tab shows exactly the last 2000 of all events it was ever given, or all of them if
    there are fewer.
  */
  lemma {:induction false} WindowOverRuns(batches: seq<seq<Event>>)
    ensures Shown(batches) == LastOf(Joined(batches), MAX_NUM_EVENTS)
  {
    if batches != [] {
      WindowOverRuns(batches[..|batches| - 1]);
    }
  }

  // ----- what a view is told of new events -----

  ghost predicate Increasing(events: seq<Event>) {
    forall i, j :: 0 <= i < j < |events| ==> events[i].seqno < events[j].seqno
  }

  /** Events that are in both lists are each other's counterparts, and the same. */
  lemma {:induction false} KeptEvents(kept: seq<Event>, added: seq<Event>)
    requires Increasing(kept + added)
    ensures OnlyIn(kept, kept + added, BySeqno) == []
    ensures Differing(kept, kept + added, BySeqno, SameEvent) == []
    ensures OnlyIn(kept + added, kept, BySeqno) == added
  {
    if kept == [] {
      assert kept + added == added;
      RunOnlyIn(added, |added|, kept, BySeqno, SameEvent);
      assert added[..|added|] == added && added[|added|..] == [];
    } else {
      var rest, all := kept[1..], kept + added;
      assert all == [kept[0]] + (rest + added) && all[1..] == rest + added;
      PartsIncrease([kept[0]], rest + added);
      assert forall i :: 0 <= i < |rest| ==> rest[i] == all[i + 1];
      KeptEvents(rest, added);
      WithoutFirst(rest, all, BySeqno, SameEvent);
      WithoutFirst(rest + added, kept, BySeqno, SameEvent);
    }
  }

  /** The window moves from `gone + kept` to `kept + added`. */
  lemma WindowMoves(gone: seq<Event>, kept: seq<Event>, added: seq<Event>)
    requires Increasing(gone + kept + added)
    ensures OnlyIn(gone + kept, kept + added, BySeqno) == gone
    ensures Differing(gone + kept, kept + added, BySeqno, SameEvent) == []
    ensures OnlyIn(kept + added, gone + kept, BySeqno) == added
  {
    var rows, window, all := gone + kept, kept + added, gone + kept + added;
    assert forall i :: 0 <= i < |window| ==> window[i] == all[|gone| + i];
    assert forall i :: 0 <= i < |gone| ==> rows[i] == gone[i] == all[i];
    assert rows[..|gone|] == gone && rows[|gone|..] == kept;
    KeptEvents(kept, added);
    RunOnlyIn(rows, |gone|, window, BySeqno, SameEvent);
    WithoutMany(window, rows, |gone|, BySeqno, SameEvent);
  }

  lemma PartsIncrease(a: seq<Event>, b: seq<Event>)
    requires Increasing(a + b)
    ensures Increasing(a) && Increasing(b)
  {
    assert forall i :: 0 <= i < |a| ==> a[i] == (a + b)[i];
    assert forall i :: 0 <= i < |b| ==> b[i] == (a + b)[|a| + i];
  }

  lemma MovedSignals(gone: seq<Event>, kept: seq<Event>, added: seq<Event>)
    requires Increasing(gone + kept + added)
    ensures var signals := Signals([], gone + kept, kept + added, BySeqno, SameEvent);
            && RemovedRows(gone + kept, signals) == gone
            && InsertedRows(signals) == added
            && ChangedRows(gone + kept, signals) == []
  {
    hide Signals, OnlyIn, Differing, RemovedRows, InsertedRows, ChangedRows, Increasing, Orders, Sorted;
    var rows, window := gone + kept, kept + added;
    assert gone + window == rows + added;
    PartsIncrease(gone, window);
    PartsIncrease(rows, added);
    OrderedBySeqno(rows, window);
    WindowMoves(gone, kept, added);
    SortedUpdateIsMinimal([], rows, window, BySeqno, SameEvent);
    assert [] + rows == rows;
  }

  /**
    When the numbers of the events increase, as a client hands them out, a view is told exactly which rows
    fall out at the top and which appear at the bottom, and of no change.
  */
  lemma AppendIsMinimal(rows: seq<Event>, newEvents: seq<Event>)
    requires Increasing(rows + newEvents)
    ensures var window := LastOf(rows + newEvents, 2000);
            var signals := Signals([], rows, window, BySeqno, SameEvent);
            var over := |rows + newEvents| - |window|;
            && RemovedRows(rows, signals) == (if over <= |rows| then rows[..over] else rows)
            && InsertedRows(signals) == (if over <= |rows| then newEvents else window)
            && ChangedRows(rows, signals) == []
  {
    var gone, kept, added := Parts(rows, newEvents);
    hide Signals, RemovedRows, InsertedRows, ChangedRows, Increasing;
    MovedSignals(gone, kept, added);
  }

  /** What falls out of the window, what stays in it, and what is new in it. */
  lemma Parts(rows: seq<Event>, newEvents: seq<Event>)
    returns (gone: seq<Event>, kept: seq<Event>, added: seq<Event>)
    requires Increasing(rows + newEvents)
    ensures var window := LastOf(rows + newEvents, 2000);
            var over := |rows + newEvents| - |window|;
            && gone == (if over <= |rows| then rows[..over] else rows)
            && added == (if over <= |rows| then newEvents else window)
            && rows == gone + kept && window == kept + added
    ensures Increasing(gone + kept + added)
  {
    var all := rows + newEvents;
    var over := |all| - |LastOf(all, 2000)|;
    if over <= |rows| {
      gone, kept, added := rows[..over], rows[over..], newEvents;
      assert gone + kept + added == all;
    } else {
      gone, kept, added := rows, [], all[over..];
      SkippedIncreasing(rows, all, over);
    }
  }

  lemma SkippedIncreasing(rows: seq<Event>, all: seq<Event>, over: nat)
    requires Increasing(all) && rows <= all && |rows| <= over <= |all|
    ensures Increasing(rows + [] + all[over..])
  {
    var less := rows + [] + all[over..];
    forall i, j | 0 <= i < j < |less| ensures less[i].seqno < less[j].seqno {
      var p := if i < |rows| then i else i - |rows| + over;
      var q := if j < |rows| then j else j - |rows| + over;
      assert less[i] == all[p] && less[j] == all[q];
    }
  }

  lemma OrderedBySeqno(rows: seq<Event>, window: seq<Event>)
    requires Increasing(rows) && Increasing(window)
    ensures Orders(BySeqno) && Sorted(rows, BySeqno) && Sorted(window, BySeqno)
  {
  }

  // ----- tasks -----

  /** `Visible` are the fields the row equality compares, `Details` the others. */
  datatype Visible = Visible(name: string, projectUrl: string, application: string, project: string, status: string,
                             suspended: bool, progress: int, elapsedSeconds: int, remainingSeconds: int, deadline: int)

  datatype Details = Details(executable: string, host: string, resources: string, wuName: string, activeTask: bool,
                             estimatedComputationSize: int, progressRate: int, virtualMemSize: int, workingSetSize: int,
                             checkpointCpuTime: int, currentCpuTime: int, finalCpuSeconds: int,
                             finalElapsedSeconds: int,
                             pid: int, slot: int, receivedTime: int)

  datatype Task = Task(visible: Visible, details: Details)

  function SameTask(a: Task, b: Task): bool {
    a.visible == b.visible
  }

  /** What the tasks table shows is right: the compared fields of every row are the new ones, for every comparator. */
  lemma {:induction false} TasksShown(current: seq<Task>, rest: seq<Task>, comp: Comparator<Task>)
    ensures forall i :: 0 <= i < |rest| ==> Merged(current, rest, comp, SameTask)[i].visible == rest[i].visible
  {
    EqualsReplacement(current, rest, comp, SameTask);
  }

  /**
    The other fields can be stale. For all lists: the shown tasks are exactly the new ones if and only if
    the update meets no two tasks that agree in the compared fields and not in the others.
  */
  lemma {:induction false} StaleDetailsIff(current: seq<Task>, rest: seq<Task>, comp: Comparator<Task>)
    ensures Merged(current, rest, comp, SameTask) == rest
       <==> forall p <- Met(current, rest, comp) :: p.0.visible == p.1.visible ==> p.0.details == p.1.details
  {
    ExactIffNoneDiffer(current, rest, comp, SameTask);
    hide Met, Merged;
    forall p | p in Met(current, rest, comp)
      ensures Differ(p, SameTask) <==> p.0.visible == p.1.visible && p.0.details != p.1.details
    {
    }
  }

  /** On sorted lists these are any two tasks of the lists that compare equal. */
  lemma SortedStaleDetailsIff(current: seq<Task>, rest: seq<Task>, comp: Comparator<Task>)
    requires Orders(comp) && Sorted(current, comp) && Sorted(rest, comp)
    ensures Merged(current, rest, comp, SameTask) == rest
       <==> forall c <- current, r <- rest ::
              comp(c, r) == 0 && c.visible == r.visible ==> c.details == r.details
  {
    SortedExactIff(current, rest, comp, SameTask);
    hide Merged, Orders, Sorted;
    forall c, r | c in current && r in rest
      ensures (comp(c, r) == 0 && SameTask(c, r) ==> c == r)
         <==> (comp(c, r) == 0 && c.visible == r.visible ==> c.details == r.details)
    {
    }
  }

  const SHOWN := Visible("wu_1", "https://one.example", "app", "Climate", "Running", false, 50, 10, 10, 99)
  const BEFORE := Task(SHOWN, Details("exe", "host", "1 CPU", "wu", true, 1, 1, 1, 1, 1, 1, 1, 1, 4711, 0, 1))
  const NOW := Task(SHOWN, Details("exe", "host", "1 CPU", "wu", true, 1, 1, 1, 1, 1, 1, 1, 1, 4712, 0, 1))

  /** A task that was restarted as another process keeps its old process id. */
  lemma OldProcessIsShown()
    ensures Merged([BEFORE], [NOW], (a, b) => 0, SameTask) == [BEFORE] && BEFORE != NOW
  {
    assert BEFORE.details.pid != NOW.details.pid;
    assert [BEFORE][1..] == [] && [NOW][1..] == [];
  }
}
