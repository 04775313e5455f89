/**
  When the update of `TableDiff` ends with exactly the new rows, and not only with rows that its equality
  takes for them.
*/
module TableDiffExact {
  import opened TableDiff
  import opened TableDiffMinimal

  /** The pairs of rows that the walk takes for the same. */
  function Met<T>(current: seq<T>, rest: seq<T>, comp: Comparator<T>): seq<(T, T)>
    decreases |current| + |rest|
  {
    if current == [] || rest == [] then []
    else if comp(current[0], rest[0]) < 0 then Met(current[RunLength(current, rest[0], comp)..], rest, comp)
    else if comp(current[0], rest[0]) == 0 then [(current[0], rest[0])] + Met(current[1..], rest[1..], comp)
    else Met(current, rest[1..], comp)
  }

  /** Equal for the update, but not the same. */
  predicate Differ<T(==)>(pair: (T, T), same: Equality<T>) {
    same(pair.0, pair.1) && pair.0 != pair.1
  }

  /**
    For all lists: the update gives exactly the new rows if and only if it meets no pair that is equal but
    different.
  */
  lemma {:induction false} ExactIffNoneDiffer<T>(current: seq<T>, rest: seq<T>, comp: Comparator<T>, same: Equality<T>)
    ensures Merged(current, rest, comp, same) == rest
         <==> forall pair <- Met(current, rest, comp) :: !Differ(pair, same)
    decreases |current| + |rest|
  {
    if current != [] && rest != [] {
      if comp(current[0], rest[0]) < 0 {
        ExactIffNoneDiffer(current[RunLength(current, rest[0], comp)..], rest, comp, same);
      } else if comp(current[0], rest[0]) == 0 {
        ExactIffNoneDiffer(current[1..], rest[1..], comp, same);
        FirstExact(current, rest, comp, same);
        FirstDiffers((current[0], rest[0]), Met(current[1..], rest[1..], comp), same);
      } else {
        ExactIffNoneDiffer(current, rest[1..], comp, same);
        assert Merged(current, rest, comp, same)[1..] == Merged(current, rest[1..], comp, same);
        assert rest == [rest[0]] + rest[1..];
      }
    }
  }

  lemma FirstExact<T>(current: seq<T>, rest: seq<T>, comp: Comparator<T>, same: Equality<T>)
    requires current != [] && rest != [] && comp(current[0], rest[0]) == 0
    ensures Merged(current, rest, comp, same) == rest
       <==> !Differ((current[0], rest[0]), same) && Merged(current[1..], rest[1..], comp, same) == rest[1..]
  {
    assert Merged(current, rest, comp, same)[1..] == Merged(current[1..], rest[1..], comp, same);
    assert rest == [rest[0]] + rest[1..];
  }

  lemma FirstDiffers<T>(first: (T, T), others: seq<(T, T)>, same: Equality<T>)
    ensures (forall pair <- [first] + others :: !Differ(pair, same))
       <==> !Differ(first, same) && forall pair <- others :: !Differ(pair, same)
  {
    assert first in [first] + others && forall pair <- others :: pair in [first] + others;
  }

  /** The walk meets rows of the two lists that compare equal. */
  lemma {:induction false} MetCompareEqual<T>(current: seq<T>, rest: seq<T>, comp: Comparator<T>, pair: (T, T))
    requires pair in Met(current, rest, comp)
    ensures pair.0 in current && pair.1 in rest && comp(pair.0, pair.1) == 0
    decreases |current| + |rest|
  {
    if comp(current[0], rest[0]) < 0 {
      MetCompareEqual(current[RunLength(current, rest[0], comp)..], rest, comp, pair);
    } else if comp(current[0], rest[0]) > 0 {
      MetCompareEqual(current, rest[1..], comp, pair);
    } else if pair != (current[0], rest[0]) {
      MetCompareEqual(current[1..], rest[1..], comp, pair);
    }
  }

  /**
    Rows that the walk passes over have no counterpart: in a run of removed rows, before an inserted one,
    beside a pair.
  */
  lemma NotInRun<T(!new)>(current: seq<T>, rest: seq<T>, comp: Comparator<T>, i: nat, j: nat)
    requires Orders(comp) && Sorted(rest, comp) && i < |current| && j < |rest| && comp(current[i], rest[j]) == 0
    requires comp(current[0], rest[0]) < 0
    ensures i >= RunLength(current, rest[0], comp)
  {
    BelowAll(current, RunLength(current, rest[0], comp), rest, comp);
  }

  lemma NotInserted<T(!new)>(current: seq<T>, rest: seq<T>, comp: Comparator<T>, i: nat, j: nat)
    requires Orders(comp) && Sorted(current, comp) && i < |current| && j < |rest| && comp(current[i], rest[j]) == 0
    requires comp(current[0], rest[0]) > 0
    ensures j > 0
  {
    assert comp(rest[0], current[0]) < 0;
    BelowAll([rest[0]], 1, current, comp);
    assert comp([rest[0]][0], current[i]) < 0;
  }

  lemma FirstWithFirst<T(!new)>(current: seq<T>, rest: seq<T>, comp: Comparator<T>, i: nat, j: nat)
    requires Orders(comp) && Sorted(current, comp) && Sorted(rest, comp)
    requires i < |current| && j < |rest| && comp(current[i], rest[j]) == 0 && comp(current[0], rest[0]) == 0
    ensures i == 0 <==> j == 0
  {
  }

  /** On sorted lists it meets all of them. */
  lemma {:induction false} SortedMeetsAll<T(!new)>(current: seq<T>, rest: seq<T>, comp: Comparator<T>, i: nat, j: nat)
    requires Orders(comp) && Sorted(current, comp) && Sorted(rest, comp)
    requires i < |current| && j < |rest| && comp(current[i], rest[j]) == 0
    ensures (current[i], rest[j]) in Met(current, rest, comp)
    decreases |current| + |rest|
  {
    hide Orders, Sorted;
    if comp(current[0], rest[0]) < 0 {
      var k := RunLength(current, rest[0], comp);
      NotInRun(current, rest, comp, i, j);
      SortedTail(current, k, comp);
      SortedMeetsAll(current[k..], rest, comp, i - k, j);
    } else if comp(current[0], rest[0]) > 0 {
      NotInserted(current, rest, comp, i, j);
      SortedTail(rest, 1, comp);
      SortedMeetsAll(current, rest[1..], comp, i, j - 1);
    } else {
      FirstWithFirst(current, rest, comp, i, j);
      if i > 0 {
        SortedTail(current, 1, comp);
        SortedTail(rest, 1, comp);
        SortedMeetsAll(current[1..], rest[1..], comp, i - 1, j - 1);
      }
    }
  }

  lemma SortedTail<T>(rows: seq<T>, k: nat, comp: Comparator<T>)
    requires Sorted(rows, comp) && k <= |rows|
    ensures Sorted(rows[k..], comp)
  {
  }

  /**
    For sorted lists: the update gives exactly the new rows if and only if any two rows that compare equal
    and are equal for the update are the same.
  */
  lemma SortedExactIff<T(!new)>(current: seq<T>, rest: seq<T>, comp: Comparator<T>, same: Equality<T>)
    requires Orders(comp) && Sorted(current, comp) && Sorted(rest, comp)
    ensures Merged(current, rest, comp, same) == rest
       <==> forall c <- current, r <- rest :: comp(c, r) == 0 && same(c, r) ==> c == r
  {
    ExactIffNoneDiffer(current, rest, comp, same);
    SortedMet(current, rest, comp);
    hide Met, Merged, Orders, Sorted;
    if forall pair <- Met(current, rest, comp) :: !Differ(pair, same) {
      forall c, r | c in current && r in rest && comp(c, r) == 0 && same(c, r) ensures c == r {
        assert !Differ((c, r), same);
      }
    }
  }

  /** The walk over sorted lists meets exactly the rows that compare equal. */
  lemma SortedMet<T(!new)>(current: seq<T>, rest: seq<T>, comp: Comparator<T>)
    requires Orders(comp) && Sorted(current, comp) && Sorted(rest, comp)
    ensures forall pair :: pair in Met(current, rest, comp)
                           <==> pair.0 in current && pair.1 in rest && comp(pair.0, pair.1) == 0
  {
    hide Met, Orders, Sorted;
    forall pair: (T, T)
      ensures pair in Met(current, rest, comp)
              <==> pair.0 in current && pair.1 in rest && comp(pair.0, pair.1) == 0
    {
      if pair in Met(current, rest, comp) {
        MetCompareEqual(current, rest, comp, pair);
      } else if pair.0 in current && pair.1 in rest && comp(pair.0, pair.1) == 0 {
        var i :| 0 <= i < |current| && current[i] == pair.0;
        var j :| 0 <= j < |rest| && rest[j] == pair.1;
        SortedMeetsAll(current, rest, comp, i, j);
      }
    }
  }
}
