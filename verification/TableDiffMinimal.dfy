/**
  On lists that are strictly sorted by the comparator the update of `TableDiff` is minimal: it removes
  exactly the rows without a counterpart in the new list, inserts exactly those without one in the old
  list, and signals a change exactly for counterparts that differ.
*/
module TableDiffMinimal {
  import opened Wrappers
  import opened TableDiff

  /** A three-way comparison that orders keys; equal keys are interchangeable. */
  ghost predicate Orders<T(!new)>(comp: Comparator<T>) {
    && (forall a, b :: comp(a, b) < 0 <==> comp(b, a) > 0)
    && (forall a, b, c :: comp(a, b) < 0 && comp(b, c) <= 0 ==> comp(a, c) < 0)
    && (forall a, b, c :: comp(a, b) <= 0 && comp(b, c) < 0 ==> comp(a, c) < 0)
  }

  ghost predicate Sorted<T>(rows: seq<T>, comp: Comparator<T>) {
    forall i, j :: 0 <= i < j < |rows| ==> comp(rows[i], rows[j]) < 0
  }

  // ----- what a list of signals does to which rows -----

  function Removes<T>(view: seq<T>, s: Signal<T>): seq<T> {
    if s.event.Removed? && s.event.first <= s.event.last < |view| then view[s.event.first..s.event.last + 1] else []
  }

  function Inserts<T>(s: Signal<T>): seq<T> {
    var e := s.event;
    if e.Inserted? && e.first <= e.last < |s.rows| then s.rows[e.first..e.last + 1] else []
  }

  function Changes<T>(view: seq<T>, s: Signal<T>): seq<(T, T)> {
    if s.event.Changed? && s.event.row < |view| && s.event.row < |s.rows|
    then [(view[s.event.row], s.rows[s.event.row])] else []
  }

  function RemovedRows<T>(view: seq<T>, signals: seq<Signal<T>>): seq<T>
    decreases |signals|
  {
    if signals == [] then [] else Removes(view, signals[0]) + RemovedRows(signals[0].rows, signals[1..])
  }

  function InsertedRows<T>(signals: seq<Signal<T>>): seq<T> {
    if signals == [] then [] else Inserts(signals[0]) + InsertedRows(signals[1..])
  }

  function ChangedRows<T>(view: seq<T>, signals: seq<Signal<T>>): seq<(T, T)>
    decreases |signals|
  {
    if signals == [] then [] else Changes(view, signals[0]) + ChangedRows(signals[0].rows, signals[1..])
  }

  // ----- the reference: counterparts by key -----

  function Counterpart<T>(row: T, rows: seq<T>, comp: Comparator<T>): Option<T> {
    if rows == [] then None
    else if comp(row, rows[0]) == 0 then Some(rows[0])
    else Counterpart(row, rows[1..], comp)
  }

  /** The rows of the one list without a counterpart in the other. */
  function OnlyIn<T>(rows: seq<T>, others: seq<T>, comp: Comparator<T>): seq<T> {
    if rows == [] then []
    else (if Counterpart(rows[0], others, comp).None? then [rows[0]] else []) + OnlyIn(rows[1..], others, comp)
  }

  /** The counterparts that differ, old and new. */
  function Differing<T>(rows: seq<T>, others: seq<T>, comp: Comparator<T>, same: Equality<T>): seq<(T, T)> {
    if rows == [] then []
    else
      (match Counterpart(rows[0], others, comp)
       case Some(other) => if same(rows[0], other) then [] else [(rows[0], other)]
       case None => [])
      + Differing(rows[1..], others, comp, same)
  }

  // ----- counterparts in sorted lists -----

  lemma {:induction false} NoCounterpart<T>(row: T, rows: seq<T>, comp: Comparator<T>)
    requires forall i :: 0 <= i < |rows| ==> comp(row, rows[i]) != 0
    ensures Counterpart(row, rows, comp).None?
  {
    if rows != [] {
      NoCounterpart(row, rows[1..], comp);
    }
  }

  /** Dropping a first row that none of these have as a counterpart changes nothing for them. */
  lemma {:induction false} WithoutFirst<T>(rows: seq<T>, others: seq<T>, comp: Comparator<T>, same: Equality<T>)
    requires others != [] && forall i :: 0 <= i < |rows| ==> comp(rows[i], others[0]) != 0
    ensures OnlyIn(rows, others, comp) == OnlyIn(rows, others[1..], comp)
    ensures Differing(rows, others, comp, same) == Differing(rows, others[1..], comp, same)
  {
    if rows != [] {
      WithoutFirst(rows[1..], others, comp, same);
    }
  }

  lemma {:induction false} WithoutMany<T>(rows: seq<T>, others: seq<T>, k: nat, comp: Comparator<T>, same: Equality<T>)
    requires k <= |others|
    requires forall i, j :: 0 <= i < |rows| && 0 <= j < k ==> comp(rows[i], others[j]) != 0
    ensures OnlyIn(rows, others, comp) == OnlyIn(rows, others[k..], comp)
  {
    if k > 0 {
      WithoutFirst(rows, others, comp, same);
      WithoutMany(rows, others[1..], k - 1, comp, same);
      assert others[1..][k - 1..] == others[k..];
    }
  }

  /** A run of rows without counterparts at the front. */
  lemma {:induction false} RunOnlyIn<T>(rows: seq<T>, k: nat, others: seq<T>, comp: Comparator<T>, same: Equality<T>)
    requires k <= |rows|
    requires forall i, j :: 0 <= i < k && 0 <= j < |others| ==> comp(rows[i], others[j]) != 0
    ensures OnlyIn(rows, others, comp) == rows[..k] + OnlyIn(rows[k..], others, comp)
    ensures Differing(rows, others, comp, same) == Differing(rows[k..], others, comp, same)
  {
    if k > 0 {
      NoCounterpart(rows[0], others, comp);
      RunOnlyIn(rows[1..], k - 1, others, comp, same);
      assert rows[1..][k - 1..] == rows[k..];
      assert rows[..k] == [rows[0]] + rows[1..][..k - 1];
    }
  }

  // ----- minimality, case by case -----

  ghost predicate Minimal<T>(done: seq<T>, current: seq<T>, rest: seq<T>, comp: Comparator<T>, same: Equality<T>) {
    var signals := Signals(done, current, rest, comp, same);
    && RemovedRows(done + current, signals) == OnlyIn(current, rest, comp)
    && InsertedRows(signals) == OnlyIn(rest, current, comp)
    && ChangedRows(done + current, signals) == Differing(current, rest, comp, same)
  }

  lemma SignalsCons<T>(view: seq<T>, s: Signal<T>, signals: seq<Signal<T>>)
    ensures RemovedRows(view, [s] + signals) == Removes(view, s) + RemovedRows(s.rows, signals)
    ensures InsertedRows([s] + signals) == Inserts(s) + InsertedRows(signals)
    ensures ChangedRows(view, [s] + signals) == Changes(view, s) + ChangedRows(s.rows, signals)
  {
    hide Removes, Inserts, Changes;
    assert ([s] + signals)[1..] == signals;
  }

  /** Rows against an empty list. */
  lemma NothingElse<T>(rows: seq<T>, comp: Comparator<T>, same: Equality<T>)
    ensures OnlyIn(rows, [], comp) == rows && Differing(rows, [], comp, same) == []
    ensures OnlyIn([], rows, comp) == [] && Differing([], rows, comp, same) == []
  {
    RunOnlyIn(rows, |rows|, [], comp, same);
    assert rows[|rows|..] == [] && rows[..|rows|] == rows;
    assert OnlyIn<T>([], [], comp) == [];
  }

  lemma RemoveTailMinimal<T>(done: seq<T>, current: seq<T>, comp: Comparator<T>, same: Equality<T>)
    requires current != []
    ensures Minimal(done, current, [], comp, same)
  {
    hide RemovedRows, InsertedRows, ChangedRows, OnlyIn, Differing;
    NothingElse(current, comp, same);
    var s := Signal(Removed(|done|, |done| + |current| - 1), done);
    assert Signals(done, current, [], comp, same) == [s] + [];
    SignalsCons(done + current, s, []);
    NoSignals(s.rows);
    assert (done + current)[|done|..] == current;
    RunOnlyIn(current, |current|, [], comp, same);
  }

  lemma InsertTailMinimal<T>(done: seq<T>, rest: seq<T>, comp: Comparator<T>, same: Equality<T>)
    requires rest != []
    ensures Minimal(done, [], rest, comp, same)
  {
    hide RemovedRows, InsertedRows, ChangedRows, OnlyIn, Differing;
    NothingElse(rest, comp, same);
    var s := Signal(Inserted(|done|, |done| + |rest| - 1), done + rest);
    assert Signals(done, [], rest, comp, same) == [s] + [];
    SignalsCons(done + [], s, []);
    NoSignals(s.rows);
    assert s.rows[|done|..] == rest;
    RunOnlyIn(rest, |rest|, [], comp, same);
  }

  lemma NoSignals<T>(view: seq<T>)
    ensures RemovedRows(view, []) == [] && InsertedRows<T>([]) == [] && ChangedRows(view, []) == []
  {
  }

  lemma TailMinimal<T>(done: seq<T>, current: seq<T>, rest: seq<T>, comp: Comparator<T>, same: Equality<T>)
    requires current == [] || rest == []
    ensures Minimal(done, current, rest, comp, same)
  {
    if current != [] {
      RemoveTailMinimal(done, current, comp, same);
    } else if rest != [] {
      InsertTailMinimal(done, rest, comp, same);
    }
  }

  /** What the signals of one iteration that removes rows add. */
  lemma RemoveSignals<T>(done: seq<T>, current: seq<T>, rest: seq<T>, comp: Comparator<T>, same: Equality<T>)
    requires current != [] && rest != [] && comp(current[0], rest[0]) < 0
    ensures var k := RunLength(current, rest[0], comp);
            var signals := Signals(done, current, rest, comp, same);
            var later := Signals(done, current[k..], rest, comp, same);
            && RemovedRows(done + current, signals) == current[..k] + RemovedRows(done + current[k..], later)
            && InsertedRows(signals) == InsertedRows(later)
            && ChangedRows(done + current, signals) == ChangedRows(done + current[k..], later)
  {
    hide RemovedRows, InsertedRows, ChangedRows;
    var k := RunLength(current, rest[0], comp);
    var s := Signal(Removed(|done|, |done| + k - 1), done + current[k..]);
    SignalsCons(done + current, s, Signals(done, current[k..], rest, comp, same));
    assert (done + current)[|done|..|done| + k] == current[..k];
  }

  lemma RemoveMinimal<T(!new)>(done: seq<T>, current: seq<T>, rest: seq<T>, comp: Comparator<T>, same: Equality<T>)
    requires Orders(comp) && Sorted(current, comp) && Sorted(rest, comp)
    requires current != [] && rest != [] && comp(current[0], rest[0]) < 0
    requires Minimal(done, current[RunLength(current, rest[0], comp)..], rest, comp, same)
    ensures Minimal(done, current, rest, comp, same)
  {
    hide Signals, RemovedRows, InsertedRows, ChangedRows;
    var k := RunLength(current, rest[0], comp);
    RemoveSignals(done, current, rest, comp, same);
    BelowAll(current, k, rest, comp);
    RunOnlyIn(current, k, rest, comp, same);
    WithoutMany(rest, current, k, comp, same);
  }

  lemma BelowAll<T(!new)>(current: seq<T>, k: nat, rest: seq<T>, comp: Comparator<T>)
    requires Orders(comp) && Sorted(rest, comp) && k <= |current| && rest != []
    requires forall i :: 0 <= i < k ==> comp(current[i], rest[0]) < 0
    ensures forall i, j :: 0 <= i < k && 0 <= j < |rest| ==>
              comp(current[i], rest[j]) < 0 && comp(rest[j], current[i]) > 0
  {
    forall i, j | 0 <= i < k && 0 <= j < |rest|
      ensures comp(current[i], rest[j]) < 0 && comp(rest[j], current[i]) > 0
    {
      assert j > 0 ==> comp(rest[0], rest[j]) < 0;
      assert comp(current[i], rest[0]) < 0;
    }
  }

  lemma InsertMinimal<T(!new)>(done: seq<T>, current: seq<T>, rest: seq<T>, comp: Comparator<T>, same: Equality<T>)
    requires Orders(comp) && Sorted(current, comp) && Sorted(rest, comp)
    requires current != [] && rest != [] && comp(current[0], rest[0]) > 0
    requires Minimal(done + [rest[0]], current, rest[1..], comp, same)
    ensures Minimal(done, current, rest, comp, same)
  {
    hide RemovedRows, InsertedRows, ChangedRows;
    var s := Signal(Inserted(|done|, |done|), done + [rest[0]] + current);
    SignalsCons(done + current, s, Signals(done + [rest[0]], current, rest[1..], comp, same));
    assert s.rows[|done|..|done| + 1] == [rest[0]];
    assert comp(rest[0], current[0]) < 0;
    BelowAll([rest[0]], 1, current, comp);
    assert forall i :: 0 <= i < |current| ==> comp([rest[0]][0], current[i]) < 0;
    NoCounterpart(rest[0], current, comp);
    WithoutFirst(current, rest, comp, same);
  }

  lemma UpdateSignals<T>(done: seq<T>, current: seq<T>, rest: seq<T>, comp: Comparator<T>, same: Equality<T>)
    requires current != [] && rest != [] && comp(current[0], rest[0]) == 0
    ensures var row := if same(current[0], rest[0]) then current[0] else rest[0];
            var signals := Signals(done, current, rest, comp, same);
            var later := Signals(done + [row], current[1..], rest[1..], comp, same);
            && RemovedRows(done + current, signals) == RemovedRows(done + [row] + current[1..], later)
            && InsertedRows(signals) == InsertedRows(later)
            && ChangedRows(done + current, signals)
               == (if same(current[0], rest[0]) then [] else [(current[0], rest[0])])
                  + ChangedRows(done + [row] + current[1..], later)
  {
    hide RemovedRows, InsertedRows, ChangedRows;
    var row := if same(current[0], rest[0]) then current[0] else rest[0];
    if same(current[0], rest[0]) {
      assert done + [row] + current[1..] == done + current;
    } else {
      var s := Signal(Changed(|done|), done + [row] + current[1..]);
      SignalsCons(done + current, s, Signals(done + [row], current[1..], rest[1..], comp, same));
    }
  }

  lemma UpdateMinimal<T(!new)>(done: seq<T>, current: seq<T>, rest: seq<T>, comp: Comparator<T>, same: Equality<T>)
    requires Orders(comp) && Sorted(current, comp) && Sorted(rest, comp)
    requires current != [] && rest != [] && comp(current[0], rest[0]) == 0
    requires Minimal(done + [if same(current[0], rest[0]) then current[0] else rest[0]],
                     current[1..], rest[1..], comp, same)
    ensures Minimal(done, current, rest, comp, same)
  {
    hide Signals, RemovedRows, InsertedRows, ChangedRows;
    UpdateSignals(done, current, rest, comp, same);
    AboveFirst(current, rest[0], comp);
    AboveFirst(rest, current[0], comp);
    WithoutFirst(current[1..], rest, comp, same);
    WithoutFirst(rest[1..], current, comp, same);
    assert comp(rest[0], current[0]) == 0;
  }

  /** The rows after the first are above everything with the first one's key. */
  lemma AboveFirst<T(!new)>(rows: seq<T>, key: T, comp: Comparator<T>)
    requires Orders(comp) && Sorted(rows, comp) && rows != [] && comp(rows[0], key) == 0
    ensures comp(key, rows[0]) == 0
    ensures forall i :: 0 <= i < |rows[1..]| ==> comp(rows[1..][i], key) != 0
  {
    forall i | 0 <= i < |rows[1..]| ensures comp(rows[1..][i], key) != 0 {
      assert comp(rows[0], rows[i + 1]) < 0;
      assert comp(key, rows[i + 1]) < 0;
    }
  }

  /**
    Minimal diff: for sorted lists the signals remove exactly the rows only in the old list, insert
    exactly those only in the new one, and change exactly the counterparts that differ, each in order.
    So no row with a counterpart is ever removed or inserted.
  */
  lemma {:induction false} SortedUpdateIsMinimal<T(!new)>(done: seq<T>, current: seq<T>, rest: seq<T>,
                                                          comp: Comparator<T>, same: Equality<T>)
    requires Orders(comp) && Sorted(current, comp) && Sorted(rest, comp)
    ensures var signals := Signals(done, current, rest, comp, same);
            && RemovedRows(done + current, signals) == OnlyIn(current, rest, comp)
            && InsertedRows(signals) == OnlyIn(rest, current, comp)
            && ChangedRows(done + current, signals) == Differing(current, rest, comp, same)
    decreases |current| + |rest|
  {
    hide Signals;
    if current == [] || rest == [] {
      TailMinimal(done, current, rest, comp, same);
    } else if comp(current[0], rest[0]) < 0 {
      SortedUpdateIsMinimal(done, current[RunLength(current, rest[0], comp)..], rest, comp, same);
      RemoveMinimal(done, current, rest, comp, same);
    } else if comp(current[0], rest[0]) == 0 {
      SortedUpdateIsMinimal(done + [if same(current[0], rest[0]) then current[0] else rest[0]],
                            current[1..], rest[1..], comp, same);
      UpdateMinimal(done, current, rest, comp, same);
    } else {
      SortedUpdateIsMinimal(done + [rest[0]], current, rest[1..], comp, same);
      InsertMinimal(done, current, rest, comp, same);
    }
  }
}
