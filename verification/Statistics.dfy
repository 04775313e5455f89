/**
  Carry-forward summing of the projects' credit series (sum_stats in ui/qt/tabs/statistics_tab.cc).
  A series knows the value of some days; between them it keeps the latest value, and before its first
  day it is given its first value.
*/
module Statistics {
  type Series = map<int, int>

  /** The known day whose value stands for `day`: the latest one not after it, else the first one. */
  ghost predicate IsSource(series: Series, day: int, known: int) {
    && known in series
    && (known <= day ==> forall e <- series :: e <= day ==> e <= known)
    && (day < known ==> forall e <- series :: known <= e)
  }

  lemma {:induction false} Least(days: set<int>, some: int) returns (least: int)
    requires some in days
    ensures least in days && forall e <- days :: least <= e
  {
    least := some;
    var rest := days - {some};
    if other :| other in rest {
      var least' := Least(rest, other);
      least := if least' < some then least' else some;
    }
    assert forall e <- days :: e == some || e in rest;
  }

  lemma {:induction false} Latest(days: set<int>, day: int) returns (latest: int)
    requires exists e <- days :: e <= day
    ensures latest in days && latest <= day && forall e <- days :: e <= day ==> e <= latest
  {
    var some :| some in days && some <= day;
    latest := some;
    var later := set e | e in days && some < e <= day;
    if e :| e in later {
      assert some !in later && later < days;
      latest := Latest(later, day);
    }
    assert forall e <- days :: e <= day ==> e <= some || e in later;
  }

  lemma SourceExists(series: Series, day: int)
    requires series != map[]
    ensures exists known :: IsSource(series, day, known)
  {
    if exists e <- series :: e <= day {
      assert exists e <- series.Keys :: e <= day;
      var known := Latest(series.Keys, day);
      assert IsSource(series, day, known);
    } else {
      var some :| some in series;
      var known := Least(series.Keys, some);
      assert IsSource(series, day, known);
    }
  }

  ghost function Source(series: Series, day: int): (known: int)
    requires series != map[]
    ensures IsSource(series, day, known)
  {
    SourceExists(series, day);
    var known :| IsSource(series, day, known);
    known
  }

  ghost function Carried(series: Series, day: int): int
    requires series != map[]
  {
    series[Source(series, day)]
  }

  lemma SourceIsUnique(series: Series, day: int, a: int, b: int)
    requires IsSource(series, day, a) && IsSource(series, day, b)
    ensures a == b
  {
  }

  lemma CarriesOn(series: Series, earlier: int, day: int)
    requires series != map[] && earlier <= day && forall e <- series :: !(earlier < e <= day)
    ensures Carried(series, day) == Carried(series, earlier)
  {
    assert IsSource(series, day, Source(series, earlier));
    SourceIsUnique(series, day, Source(series, earlier), Source(series, day));
  }

  function AllDays(all: seq<Series>): set<int> {
    if all == [] then {} else AllDays(all[..|all| - 1]) + all[|all| - 1].Keys
  }

  ghost predicate Nonempty(all: seq<Series>) {
    forall i :: 0 <= i < |all| ==> all[i] != map[]
  }

  /** The sum over the series of what each carries on that day. */
  ghost function Total(all: seq<Series>, day: int): int
    requires Nonempty(all)
  {
    if all == [] then 0 else Total(all[..|all| - 1], day) + Carried(all[|all| - 1], day)
  }

  // ----- the loops of sum_stats -----

  ghost function Some<T>(items: set<T>): (item: T)
    requires items != {}
    ensures item in items
  {
    var item :| item in items;
    item
  }

  /** The first key of a map, in the order a `std::map` is walked through. */
  method First(days: set<int>) returns (first: int)
    requires days != {}
    ensures first in days && forall e <- days :: first <= e
  {
    ghost var least := Least(days, Some(days));
    first :| first in days && forall e <- days :: first <= e;
  }

  /** `value` is what the series carries after the days that are done and before those to do. */
  ghost predicate Between(series: Series, days: set<int>, todo: set<int>, value: int)
    requires series != map[]
  {
    forall d :: (forall a <- days - todo :: a <= d) && (forall b <- todo :: d < b) ==> Carried(series, d) == value
  }

  ghost predicate Ordered(done: set<int>, todo: set<int>) {
    forall a, b | a in done && b in todo :: a < b
  }

  lemma NextDay(days: set<int>, todo: set<int>, day: int)
    requires todo <= days && day in todo && (forall b <- todo :: day <= b) && Ordered(days - todo, todo)
    ensures Ordered(days - (todo - {day}), todo - {day})
  {
    forall a, b | a in days - (todo - {day}) && b in todo - {day} ensures a < b {
      assert a == day || a in days - todo;
    }
  }

  lemma BeforeAll(series: Series, days: set<int>, first: int)
    requires series.Keys <= days && first in series && forall e <- series.Keys :: first <= e
    ensures Between(series, days, days, series[first])
  {
    forall d | forall b <- days :: d < b ensures Carried(series, d) == series[first] {
      assert IsSource(series, d, first);
      SourceIsUnique(series, d, first, Source(series, d));
    }
  }

  lemma OnTheDay(series: Series, days: set<int>, todo: set<int>, known: int, day: int, value: int)
    requires series != map[] && series.Keys <= days && todo <= days
    requires day in todo && forall b <- todo :: day <= b
    requires Ordered(days - todo, todo)
    requires Between(series, days, todo, known)
    requires value == if day in series then series[day] else known
    ensures Carried(series, day) == value && Between(series, days, todo - {day}, value)
  {
    if day in series {
      assert IsSource(series, day, day);
      SourceIsUnique(series, day, day, Source(series, day));
    } else {
      assert Carried(series, day - 1) == known;
      CarriesOn(series, day - 1, day);
    }
    forall d | (forall a <- days - (todo - {day}) :: a <= d) && (forall b <- todo - {day} :: d < b)
      ensures Carried(series, d) == value
    {
      assert day in days - (todo - {day});
      forall e <- series ensures !(day < e <= d) {
        assert e in days - todo || e == day || e in todo - {day};
      }
      CarriesOn(series, day, d);
    }
  }

  /** The days are walked in ascending order with the value carried along. */
  method AddSeries(series: Series, summed: Series) returns (r: Series)
    requires series != map[] && series.Keys <= summed.Keys
    ensures r.Keys == summed.Keys
    ensures forall day <- summed.Keys :: r[day] == summed[day] + Carried(series, day)
  {
    assert Ordered(summed.Keys - summed.Keys, summed.Keys);
    hide Carried, Between, Ordered;
    var first := First(series.Keys);
    var value := series[first];
    r := summed;
    ghost var days := summed.Keys;
    var todo := summed.Keys;
    BeforeAll(series, days, first);
    while todo != {}
      invariant todo <= days == r.Keys && Ordered(days - todo, todo)
      invariant forall day <- days :: r[day] == summed[day] + if day in todo then 0 else Carried(series, day)
      invariant Between(series, days, todo, value)
      decreases |todo|
    {
      var day := First(todo);
      ghost var known := value;
      if day in series {
        value := series[day];
      }
      OnTheDay(series, days, todo, known, day, value);
      NextDay(days, todo, day);
      r := r[day := r[day] + value];
      todo := todo - {day};
    }
  }

  method SumStats(all: seq<Series>) returns (summed: Series)
    requires Nonempty(all)
    ensures summed.Keys == AllDays(all)
    ensures forall day <- summed.Keys :: summed[day] == Total(all, day)
  {
    hide Carried;
    summed := map[];
    for i := 0 to |all|
      invariant summed.Keys == AllDays(all[..i]) && forall day <- summed.Keys :: summed[day] == 0
    {
      summed := summed + map day | day in all[i] :: 0;
      assert all[..i + 1][..i] == all[..i];
    }
    assert all[..|all|] == all;
    for i := 0 to |all|
      invariant Nonempty(all[..i]) && summed.Keys == AllDays(all)
      invariant forall day <- summed.Keys :: summed[day] == Total(all[..i], day)
    {
      DaysOf(all, i);
      summed := AddSeries(all[i], summed);
      assert all[..i + 1][..i] == all[..i];
    }
  }

  lemma {:induction false} DaysOf(all: seq<Series>, i: nat)
    requires i < |all|
    ensures all[i].Keys <= AllDays(all)
  {
    if i < |all| - 1 {
      DaysOf(all[..|all| - 1], i);
    }
  }

  // ----- what the sum means -----

  /** The days of the sum are the union of the days of the series. */
  lemma {:induction false} SomeSeriesHas(all: seq<Series>, day: int)
    ensures day in AllDays(all) <==> exists i :: 0 <= i < |all| && day in all[i]
  {
    if all != [] {
      var front := all[..|all| - 1];
      SomeSeriesHas(front, day);
      if i :| 0 <= i < |all| && day in all[i] && i < |all| - 1 {
        assert front[i] == all[i];
      }
    }
  }

  /** One series sums to what it carries. */
  lemma TotalOfOne(series: Series, day: int)
    requires series != map[]
    ensures Nonempty([series]) && Total([series], day) == Carried(series, day)
  {
    assert [series][..0] == [];
    assert Total([], day) == 0;
  }

  /** The series of two groups sum to the two sums. */
  lemma {:induction false} TotalConcat(a: seq<Series>, b: seq<Series>, day: int)
    requires Nonempty(a) && Nonempty(b)
    ensures Nonempty(a + b) && Total(a + b, day) == Total(a, day) + Total(b, day)
    decreases |b|
  {
    if b == [] {
      assert a + b == a;
    } else {
      var front := b[..|b| - 1];
      TotalConcat(a, front, day);
      assert (a + b)[..|a + b| - 1] == a + front;
    }
  }

  /** One series taken out of the middle. */
  lemma TotalWithout(all: seq<Series>, i: nat, day: int)
    requires Nonempty(all) && i < |all|
    ensures Nonempty(all[..i] + all[i + 1..])
    ensures Total(all, day) == Total(all[..i] + all[i + 1..], day) + Carried(all[i], day)
  {
    hide Total, Carried;
    var before, one, after := all[..i], [all[i]], all[i + 1..];
    TotalConcat(before, after, day);
    TotalConcat(one, after, day);
    TotalConcat(before, one + after, day);
    TotalOfOne(all[i], day);
    assert all == before + (one + after);
  }

  lemma OneOut<T>(s: seq<T>, i: nat)
    requires i < |s|
    ensures multiset(s) == multiset(s[..i] + s[i + 1..]) + multiset{s[i]}
  {
    assert s == s[..i] + ([s[i]] + s[i + 1..]);
  }

  lemma TakeOut<T>(a: seq<T>, b: seq<T>) returns (i: nat)
    requires a != [] && multiset(a) == multiset(b)
    ensures i < |b| && b[i] == a[|a| - 1] && multiset(a[..|a| - 1]) == multiset(b[..i] + b[i + 1..])
  {
    var k := |a| - 1;
    assert a[k] in multiset(b);
    i :| 0 <= i < |b| && b[i] == a[k];
    OneOut(a, k);
    OneOut(b, i);
    assert a[..k] + a[k + 1..] == a[..k];
    assert multiset(a[..k]) == multiset(a) - multiset{a[k]};
    assert multiset(b[..i] + b[i + 1..]) == multiset(b) - multiset{b[i]};
  }

  /** The order of the projects does not matter. */
  lemma {:induction false} TotalInAnyOrder(a: seq<Series>, b: seq<Series>, day: int)
    requires Nonempty(a) && Nonempty(b) && multiset(a) == multiset(b)
    ensures Total(a, day) == Total(b, day)
    decreases |a|
  {
    if a == [] {
      assert |multiset(b)| == 0;
    } else {
      var i := TakeOut(a, b);
      TotalWithout(b, i, day);
      hide Carried;
      TotalInAnyOrder(a[..|a| - 1], b[..i] + b[i + 1..], day);
    }
  }

  ghost predicate Growing(series: Series) {
    forall a, b | a in series && b in series && a <= b :: series[a] <= series[b]
  }

  /** Total credit never shrinks in the sum when it does not in any project, however sparse the series are. */
  lemma {:induction false} SumGrows(all: seq<Series>, a: int, b: int)
    requires Nonempty(all) && a <= b && forall i :: 0 <= i < |all| ==> Growing(all[i])
    ensures Total(all, a) <= Total(all, b)
  {
    if all != [] {
      SumGrows(all[..|all| - 1], a, b);
      var last := all[|all| - 1];
      var x, y := Source(last, a), Source(last, b);
      assert x <= y;
    }
  }
}
