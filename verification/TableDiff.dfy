/**
  The incremental table update (ui/qt/tabs/tab_model_updater.h): the shown rows are edited in place into
  the new rows, and a view is told of every edit by a row event.
*/
module TableDiff {

  datatype RowEvent = Removed(first: nat, last: nat) | Changed(row: nat) | Inserted(first: nat, last: nat)

  /** An event together with the model's rows at the moment it is signalled, which is all a view can read. */
  datatype Signal<T> = Signal(event: RowEvent, rows: seq<T>)

  /** What a comparator and a row equality are to this module. */
  type Comparator<!T> = (T, T) -> int
  type Equality<!T> = (T, T) -> bool

  // ----- the loop, as a function of where it is -----

  /** How many rows `do_remove` takes: the first, and the following ones that are below `next`. */
  function RunLength<T>(current: seq<T>, next: T, comp: Comparator<T>): (k: nat)
    requires current != []
    ensures 1 <= k <= |current|
    ensures forall i :: 1 <= i < k ==> comp(current[i], next) < 0
    ensures k < |current| ==> comp(current[k], next) >= 0
  {
    RunFrom(current, 1, next, comp)
  }

  function RunFrom<T>(current: seq<T>, i: nat, next: T, comp: Comparator<T>): (k: nat)
    requires i <= |current|
    ensures i <= k <= |current|
    ensures forall j :: i <= j < k ==> comp(current[j], next) < 0
    ensures k < |current| ==> comp(current[k], next) >= 0
    decreases |current| - i
  {
    if i < |current| && comp(current[i], next) < 0 then RunFrom(current, i + 1, next, comp) else i
  }

  /** The signals still to come when `done` is settled, `current` is left of the old rows and `rest` of the new ones. */
  function Signals<T>(done: seq<T>, current: seq<T>, rest: seq<T>, comp: Comparator<T>, same: Equality<T>)
    : seq<Signal<T>>
    decreases |current| + |rest|
  {
    if current == [] && rest == [] then []
    else if current == [] then
      [Signal(Inserted(|done|, |done| + |rest| - 1), done + rest)]
    else if rest == [] then
      [Signal(Removed(|done|, |done| + |current| - 1), done)]
    else if comp(current[0], rest[0]) < 0 then
      var k := RunLength(current, rest[0], comp);
      [Signal(Removed(|done|, |done| + k - 1), done + current[k..])]
      + Signals(done, current[k..], rest, comp, same)
    else if comp(current[0], rest[0]) == 0 then
      if same(current[0], rest[0]) then
        Signals(done + [current[0]], current[1..], rest[1..], comp, same)
      else
        [Signal(Changed(|done|), done + [rest[0]] + current[1..])]
        + Signals(done + [rest[0]], current[1..], rest[1..], comp, same)
    else
      [Signal(Inserted(|done|, |done|), done + [rest[0]] + current)]
      + Signals(done + [rest[0]], current, rest[1..], comp, same)
  }

  /** The rows the loop ends with beyond those settled already. */
  function Merged<T>(current: seq<T>, rest: seq<T>, comp: Comparator<T>, same: Equality<T>): (rows: seq<T>)
    ensures |rows| == |rest|
    decreases |current| + |rest|
  {
    if current == [] || rest == [] then rest
    else if comp(current[0], rest[0]) < 0 then
      Merged(current[RunLength(current, rest[0], comp)..], rest, comp, same)
    else if comp(current[0], rest[0]) == 0 then
      [if same(current[0], rest[0]) then current[0] else rest[0]] + Merged(current[1..], rest[1..], comp, same)
    else
      [rest[0]] + Merged(current, rest[1..], comp, same)
  }

  // ----- what an iteration does not change: where the loop is heading -----

  /** The final rows and signals, seen from iterator position `index`. */
  function Goal<T>(rows: seq<T>, newRows: seq<T>, signals: seq<Signal<T>>, index: nat,
                   comp: Comparator<T>, same: Equality<T>): (seq<T>, seq<Signal<T>>)
    requires index <= |rows| && index <= |newRows|
  {
    (rows[..index] + Merged(rows[index..], newRows[index..], comp, same),
     signals + Signals(rows[..index], rows[index..], newRows[index..], comp, same))
  }

  lemma Associative<T>(a: seq<T>, b: seq<T>, c: seq<T>)
    ensures a + (b + c) == a + b + c
  {
  }

  lemma RemoveKeepsGoal<T>(rows: seq<T>, newRows: seq<T>, signals: seq<Signal<T>>, index: nat,
                           comp: Comparator<T>, same: Equality<T>)
    requires index < |rows| && index < |newRows| && comp(rows[index], newRows[index]) < 0
    ensures var k := RunLength(rows[index..], newRows[index], comp);
            var shorter := rows[..index] + rows[index + k..];
            Goal(shorter, newRows, signals + [Signal(Removed(index, index + k - 1), shorter)], index, comp, same)
            == Goal(rows, newRows, signals, index, comp, same)
  {
    var done, current := rows[..index], rows[index..];
    var k := RunLength(current, newRows[index], comp);
    var shorter := done + rows[index + k..];
    assert current[k..] == rows[index + k..];
    assert shorter[..index] == done && shorter[index..] == current[k..];
    Associative(signals, [Signal(Removed(index, index + k - 1), shorter)],
                Signals(done, current[k..], newRows[index..], comp, same));
  }

  lemma UpdateKeepsGoal<T>(rows: seq<T>, newRows: seq<T>, signals: seq<Signal<T>>, index: nat,
                           comp: Comparator<T>, same: Equality<T>)
    requires index < |rows| && index < |newRows| && comp(rows[index], newRows[index]) == 0
    ensures var kept := same(rows[index], newRows[index]);
            var updated := if kept then rows else rows[index := newRows[index]];
            Goal(updated, newRows, signals + (if kept then [] else [Signal(Changed(index), updated)]),
                 index + 1, comp, same)
            == Goal(rows, newRows, signals, index, comp, same)
  {
    var done, current, rest := rows[..index], rows[index..], newRows[index..];
    var updated := if same(rows[index], newRows[index]) then rows else rows[index := newRows[index]];
    assert newRows[index + 1..] == rest[1..];
    assert updated[..index + 1] == done + [updated[index]] && updated[index + 1..] == current[1..];
    assert done + [updated[index]] + current[1..] == updated;
    Associative(done, [updated[index]], Merged(current[1..], rest[1..], comp, same));
    Associative(signals, [Signal(Changed(index), updated)],
                Signals(done + [rest[0]], current[1..], rest[1..], comp, same));
    assert signals + [] == signals;
  }

  lemma InsertKeepsGoal<T>(rows: seq<T>, newRows: seq<T>, signals: seq<Signal<T>>, index: nat,
                           comp: Comparator<T>, same: Equality<T>)
    requires index < |rows| && index < |newRows| && comp(rows[index], newRows[index]) > 0
    ensures var longer := rows[..index] + [newRows[index]] + rows[index..];
            Goal(longer, newRows, signals + [Signal(Inserted(index, index), longer)], index + 1, comp, same)
            == Goal(rows, newRows, signals, index, comp, same)
  {
    var done, current, rest := rows[..index], rows[index..], newRows[index..];
    var longer := done + [newRows[index]] + current;
    assert newRows[index + 1..] == rest[1..];
    assert longer[..index + 1] == done + [newRows[index]] && longer[index + 1..] == current;
    Associative(done, [newRows[index]], Merged(current, rest[1..], comp, same));
    Associative(signals, [Signal(Inserted(index, index), longer)],
                Signals(done + [rest[0]], current, rest[1..], comp, same));
  }

  class TabModel<T> {
    var rows: seq<T>
    var signals: seq<Signal<T>>

    constructor ()
      ensures rows == [] && signals == []
    {
      rows, signals := [], [];
    }

    method Emit(event: RowEvent)
      modifies `signals
      ensures signals == old(signals) + [Signal(event, rows)]
    {
      signals := signals + [Signal(event, rows)];
    }

    /** `index` is the position of both iterators: what lies before it is already as it should be. */
    method Update(newRows: seq<T>, comp: Comparator<T>, same: Equality<T>)
      modifies this
      ensures rows == Merged(old(rows), newRows, comp, same)
      ensures signals == old(signals) + Signals([], old(rows), newRows, comp, same)
    {
      if newRows == [] {
        if rows != [] {
          var last := |rows| - 1;
          rows := [];
          Emit(Removed(0, last));
        }
        return;
      }
      hide Signals, Merged, RunLength;
      var index := 0;
      ghost var goal := Goal(old(rows), newRows, old(signals), 0, comp, same);
      assert rows[..0] == [] && rows[0..] == rows && newRows[0..] == newRows;
      while index < |rows| && index < |newRows|
        invariant index <= |rows| && index <= |newRows|
        invariant Goal(rows, newRows, signals, index, comp, same) == goal
        decreases |rows| + |newRows| - 2 * index
      {
        var order := comp(rows[index], newRows[index]);
        if order < 0 {
          DoRemove(index, newRows, comp, same);
        } else if order == 0 {
          DoUpdate(index, newRows, comp, same);
          index := index + 1;
        } else {
          DoInsert(index, newRows, comp, same);
          index := index + 1;
        }
      }
      DoTail(index, newRows, comp, same);
    }

    method DoUpdate(index: nat, newRows: seq<T>, comp: Comparator<T>, same: Equality<T>)
      requires index < |rows| && index < |newRows| && comp(rows[index], newRows[index]) == 0
      modifies this
      ensures |rows| == |old(rows)|
      ensures Goal(rows, newRows, signals, index + 1, comp, same)
           == Goal(old(rows), newRows, old(signals), index, comp, same)
    {
      hide Goal;
      UpdateKeepsGoal(rows, newRows, signals, index, comp, same);
      if !same(rows[index], newRows[index]) {
        rows := rows[index := newRows[index]];
        Emit(Changed(index));
      } else {
        assert signals + [] == signals;
      }
    }

    method DoInsert(index: nat, newRows: seq<T>, comp: Comparator<T>, same: Equality<T>)
      requires index < |rows| && index < |newRows| && comp(rows[index], newRows[index]) > 0
      modifies this
      ensures |rows| == |old(rows)| + 1
      ensures Goal(rows, newRows, signals, index + 1, comp, same)
           == Goal(old(rows), newRows, old(signals), index, comp, same)
    {
      hide Goal;
      InsertKeepsGoal(rows, newRows, signals, index, comp, same);
      rows := rows[..index] + [newRows[index]] + rows[index..];
      Emit(Inserted(index, index));
    }

    method DoRemove(index: nat, newRows: seq<T>, comp: Comparator<T>, same: Equality<T>)
      requires index < |rows| && index < |newRows| && comp(rows[index], newRows[index]) < 0
      modifies this
      ensures index <= |rows| < |old(rows)|
      ensures Goal(rows, newRows, signals, index, comp, same)
           == Goal(old(rows), newRows, old(signals), index, comp, same)
    {
      hide Goal;
      var end := index + 1;
      while end < |rows| && comp(rows[end], newRows[index]) < 0
        invariant index < end <= |rows|
        invariant RunFrom(rows[index..], end - index, newRows[index], comp)
            == RunLength(rows[index..], newRows[index], comp)
      {
        end := end + 1;
      }
      RemoveKeepsGoal(rows, newRows, signals, index, comp, same);
      rows := rows[..index] + rows[end..];
      Emit(Removed(index, end - 1));
    }

    /** What is left when one of the two iterators has arrived. */
    method DoTail(index: nat, newRows: seq<T>, comp: Comparator<T>, same: Equality<T>)
      requires index <= |rows| && index <= |newRows| && (index == |rows| || index == |newRows|)
      modifies this
      ensures rows == old(rows)[..index] + Merged(old(rows)[index..], newRows[index..], comp, same)
      ensures signals == old(signals) + Signals(old(rows)[..index], old(rows)[index..], newRows[index..], comp, same)
    {
      if index < |rows| {
        var last := |rows| - 1;
        rows := rows[..index];
        Emit(Removed(index, last));
      } else if index < |newRows| {
        assert |rows| < |newRows|;
        var first := |rows|;
        rows := rows + newRows[index..];
        Emit(Inserted(first, |newRows| - 1));
      }
    }
  }

  // ----- the result is the new list -----

  /**
    Any old list, any new list, any comparator: each row shown in the end is the new one, or equal to it
    under the row equality.
  */
  lemma {:induction false} EqualsReplacement<T(!new)>(current: seq<T>, rest: seq<T>, comp: Comparator<T>,
                                                      same: Equality<T>)
    ensures forall i :: 0 <= i < |rest| ==>
      Merged(current, rest, comp, same)[i] == rest[i] || same(Merged(current, rest, comp, same)[i], rest[i])
    decreases |current| + |rest|
  {
    if current == [] || rest == [] {
    } else if comp(current[0], rest[0]) < 0 {
      EqualsReplacement(current[RunLength(current, rest[0], comp)..], rest, comp, same);
    } else if comp(current[0], rest[0]) == 0 {
      EqualsReplacement(current[1..], rest[1..], comp, same);
    } else {
      EqualsReplacement(current, rest[1..], comp, same);
    }
  }

  /** If the row equality is equality, the result is the new list itself. */
  lemma {:induction false} IsReplacement<T(!new)>(current: seq<T>, rest: seq<T>, comp: Comparator<T>, same: Equality<T>)
    requires forall a, b :: same(a, b) ==> a == b
    ensures Merged(current, rest, comp, same) == rest
  {
    EqualsReplacement(current, rest, comp, same);
  }

  // ----- a view that only follows the signals -----

  predicate ValidFor<T>(event: RowEvent, view: seq<T>, rows: seq<T>) {
    match event
    case Removed(first, last) => first <= last < |view|
    case Changed(row) => row < |view| && row < |rows|
    case Inserted(first, last) => first <= |view| && first <= last < |rows|
  }

  /** A view erases removed rows, and reads changed and inserted ones from the model. */
  function Followed<T>(view: seq<T>, s: Signal<T>): seq<T>
    requires ValidFor(s.event, view, s.rows)
  {
    match s.event
    case Removed(first, last) => view[..first] + view[last + 1..]
    case Changed(row) => view[row := s.rows[row]]
    case Inserted(first, last) => view[..first] + s.rows[first..last + 1] + view[first..]
  }

  /** After every signal the view shows exactly the model's rows, and in the end it shows `final`. */
  predicate InStep<T(==)>(view: seq<T>, signals: seq<Signal<T>>, final: seq<T>)
    decreases |signals|
  {
    if signals == [] then view == final
    else
      && ValidFor(signals[0].event, view, signals[0].rows)
      && Followed(view, signals[0]) == signals[0].rows
      && InStep(signals[0].rows, signals[1..], final)
  }

  lemma InStepCons<T>(view: seq<T>, s: Signal<T>, signals: seq<Signal<T>>, final: seq<T>)
    requires ValidFor(s.event, view, s.rows) && Followed(view, s) == s.rows && InStep(s.rows, signals, final)
    ensures InStep(view, [s] + signals, final)
  {
    assert ([s] + signals)[1..] == signals;
  }

  lemma TailInStep<T>(done: seq<T>, current: seq<T>, rest: seq<T>, comp: Comparator<T>, same: Equality<T>)
    requires current == [] || rest == []
    ensures InStep(done + current, Signals(done, current, rest, comp, same), done + rest)
  {
    var signals := Signals(done, current, rest, comp, same);
    assert signals != [] ==> signals[1..] == [];
    assert (done + current)[..|done|] == done && (done + current)[|done| + |current|..] == [];
  }

  lemma RemoveInStep<T>(done: seq<T>, current: seq<T>, rest: seq<T>, comp: Comparator<T>, same: Equality<T>,
                        final: seq<T>)
    requires current != [] && rest != [] && comp(current[0], rest[0]) < 0
    requires var k := RunLength(current, rest[0], comp);
             InStep(done + current[k..], Signals(done, current[k..], rest, comp, same), final)
    ensures InStep(done + current, Signals(done, current, rest, comp, same), final)
  {
    hide InStep;
    var k, view := RunLength(current, rest[0], comp), done + current;
    var s := Signal(Removed(|done|, |done| + k - 1), done + current[k..]);
    FollowedRemoval(done, current, k);
    InStepCons(view, s, Signals(done, current[k..], rest, comp, same), final);
  }

  lemma FollowedRemoval<T>(done: seq<T>, current: seq<T>, k: nat)
    requires 1 <= k <= |current|
    ensures Followed(done + current, Signal(Removed(|done|, |done| + k - 1), done + current[k..]))
         == done + current[k..]
  {
    var view := done + current;
    assert view[..|done|] == done && view[|done| + k..] == current[k..];
  }

  lemma UpdateInStep<T>(done: seq<T>, current: seq<T>, rest: seq<T>, comp: Comparator<T>, same: Equality<T>,
                        final: seq<T>)
    requires current != [] && rest != [] && comp(current[0], rest[0]) == 0
    requires var row := if same(current[0], rest[0]) then current[0] else rest[0];
             InStep(done + [row] + current[1..], Signals(done + [row], current[1..], rest[1..], comp, same), final)
    ensures InStep(done + current, Signals(done, current, rest, comp, same), final)
  {
    hide InStep;
    var view := done + current;
    if same(current[0], rest[0]) {
      assert done + [current[0]] + current[1..] == view;
    } else {
      var s := Signal(Changed(|done|), done + [rest[0]] + current[1..]);
      assert view[|done| := rest[0]] == s.rows;
      InStepCons(view, s, Signals(done + [rest[0]], current[1..], rest[1..], comp, same), final);
    }
  }

  lemma InsertInStep<T>(done: seq<T>, current: seq<T>, rest: seq<T>, comp: Comparator<T>, same: Equality<T>,
                        final: seq<T>)
    requires current != [] && rest != [] && comp(current[0], rest[0]) > 0
    requires InStep(done + [rest[0]] + current, Signals(done + [rest[0]], current, rest[1..], comp, same), final)
    ensures InStep(done + current, Signals(done, current, rest, comp, same), final)
  {
    hide InStep;
    var view := done + current;
    var s := Signal(Inserted(|done|, |done|), done + [rest[0]] + current);
    assert view[..|done|] == done && view[|done|..] == current;
    assert s.rows[|done|..|done| + 1] == [rest[0]];
    InStepCons(view, s, Signals(done + [rest[0]], current, rest[1..], comp, same), final);
  }

  /** The view stays in step through the whole update, for any lists and any comparator. */
  lemma {:induction false} ViewInStep<T>(done: seq<T>, current: seq<T>, rest: seq<T>, comp: Comparator<T>,
                                         same: Equality<T>)
    ensures InStep(done + current, Signals(done, current, rest, comp, same), done + Merged(current, rest, comp, same))
    decreases |current| + |rest|
  {
    hide InStep, Signals;
    var final := done + Merged(current, rest, comp, same);
    if current == [] || rest == [] {
      TailInStep(done, current, rest, comp, same);
    } else if comp(current[0], rest[0]) < 0 {
      ViewInStep(done, current[RunLength(current, rest[0], comp)..], rest, comp, same);
      RemoveInStep(done, current, rest, comp, same, final);
    } else if comp(current[0], rest[0]) == 0 {
      var row := if same(current[0], rest[0]) then current[0] else rest[0];
      ViewInStep(done + [row], current[1..], rest[1..], comp, same);
      Associative(done, [row], Merged(current[1..], rest[1..], comp, same));
      UpdateInStep(done, current, rest, comp, same, final);
    } else {
      ViewInStep(done + [rest[0]], current, rest[1..], comp, same);
      Associative(done, [rest[0]], Merged(current, rest[1..], comp, same));
      InsertInStep(done, current, rest, comp, same, final);
    }
  }
}
