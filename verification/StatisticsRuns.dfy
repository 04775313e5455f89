/**
  Runs of the statistics tab: any sequence of updates, with the list widget that follows its signals.
*/
module StatisticsRuns {
  import opened Orders
  import opened StatisticsState

  /** One update and what it emitted. */
  datatype Event = Event(update: Update, signals: seq<Signal>)

  /** Selections come from the list widget: no name twice, only listed ones, and one at most in the one-project mode. */
  predicate Selectable(s: State, names: seq<string>) {
    && NoDuplicates(names)
    && (forall name <- names :: name in s.stats)
    && (s.mode == OneProject ==> |names| <= 1)
  }

  ghost predicate Possible(s: State, e: Event) {
    && (e.update.Select? ==> Selectable(s, e.update.names))
    && Announces(s, e.update, e.signals)
  }

  ghost predicate IsRun(s: State, events: seq<Event>)
    decreases |events|
  {
    events == [] || (Possible(s, events[0]) && IsRun(Next(s, events[0].update), events[1..]))
  }

  function After(s: State, events: seq<Event>): State
    decreases |events|
  {
    if events == [] then s else After(Next(s, events[0].update), events[1..])
  }

  // ----- the list widget -----

  /** ProjectsWidget: an added project is one more row; a removed one takes all its rows along. */
  function Shown(rows: multiset<string>, signal: Signal): multiset<string> {
    match signal
    case Added(name) => rows + multiset{name}
    case Removed(name) => rows[name := 0]
    case _ => rows
  }

  class ProjectsWidget {
    var rows: multiset<string>

    constructor ()
      ensures rows == multiset{}
    {
      rows := multiset{};
    }

    method AddProject(name: string)
      modifies this
      ensures rows == Shown(old(rows), Added(name))
    {
      rows := rows + multiset{name};
    }

    method RemoveProject(name: string)
      modifies this
      ensures rows == Shown(old(rows), Removed(name))
    {
      while name in rows
        invariant rows[name := 0] == old(rows)[name := 0]
        decreases rows[name]
      {
        rows := rows - multiset{name};
      }
      assert rows == rows[name := 0];
    }
  }

  function Replayed(rows: multiset<string>, signals: seq<Signal>): multiset<string>
    decreases |signals|
  {
    if signals == [] then rows else Replayed(Shown(rows, signals[0]), signals[1..])
  }

  function ReplayedAll(rows: multiset<string>, events: seq<Event>): multiset<string>
    decreases |events|
  {
    if events == [] then rows else ReplayedAll(Replayed(rows, events[0].signals), events[1..])
  }

  /** One row for each project that has statistics. */
  predicate Mirrors(rows: multiset<string>, s: State) {
    rows == multiset(s.stats.Keys)
  }

  lemma {:induction false} ReplayConcat(rows: multiset<string>, a: seq<Signal>, b: seq<Signal>)
    ensures Replayed(rows, a + b) == Replayed(Replayed(rows, a), b)
    decreases |a|
  {
    if a == [] {
      assert a + b == b;
    } else {
      assert (a + b)[1..] == a[1..] + b;
      ReplayConcat(Shown(rows, a[0]), a[1..], b);
    }
  }

  lemma RowGone(shown: set<string>, name: string)
    ensures Shown(multiset(shown), Removed(name)) == multiset(shown - {name})
  {
  }

  lemma RowNew(shown: set<string>, name: string)
    requires name !in shown
    ensures Shown(multiset(shown), Added(name)) == multiset(shown + {name})
  {
  }

  function Names(list: seq<string>): set<string> {
    set name | name in list
  }

  lemma {:induction false} ReplayRemovals(shown: set<string>, names: seq<string>)
    ensures Replayed(multiset(shown), Removals(names)) == multiset(shown - Names(names))
    decreases |names|
  {
    if names != [] {
      var rest := names[1..];
      assert Removals(names)[0] == Removed(names[0]) && Removals(names)[1..] == Removals(rest);
      assert shown - Names(names) == shown - {names[0]} - Names(rest);
      hide Removals, Names, Shown;
      RowGone(shown, names[0]);
      ReplayRemovals(shown - {names[0]}, rest);
    } else {
      assert shown - Names(names) == shown;
    }
  }

  lemma {:induction false} ReplayAdditions(shown: set<string>, names: seq<string>)
    requires NoDuplicates(names) && forall name <- names :: name !in shown
    ensures Replayed(multiset(shown), Additions(names)) == multiset(shown + Names(names))
    decreases |names|
  {
    if names != [] {
      var rest := names[1..];
      assert Additions(names)[0] == Added(names[0]) && Additions(names)[1..] == Additions(rest);
      assert shown + Names(names) == shown + {names[0]} + Names(rest);
      hide Additions, Names, Shown;
      RowNew(shown, names[0]);
      ReplayAdditions(shown + {names[0]}, rest);
    } else {
      assert shown + Names(names) == shown;
    }
  }

  lemma ReplayAnnounced(keys: set<string>, newKeys: set<string>, lost: seq<string>, gained: seq<string>,
                        last: seq<Signal>)
    requires IsOrderOf(lost, keys - newKeys) && IsOrderOf(gained, newKeys - keys)
    requires forall rows :: Replayed(rows, last) == rows
    ensures Replayed(multiset(keys), Removals(lost) + Additions(gained) + last) == multiset(newKeys)
  {
    hide Replayed, Removals, Additions;
    ReplayConcat(multiset(keys), Removals(lost) + Additions(gained), last);
    ReplayConcat(multiset(keys), Removals(lost), Additions(gained));
    ReplayRemovals(keys, lost);
    assert keys - Names(lost) == keys * newKeys;
    ReplayAdditions(keys * newKeys, gained);
    assert keys * newKeys + Names(gained) == newKeys;
  }

  lemma LastSignalShowsNothing(s: State, update: Update, rows: multiset<string>)
    ensures Replayed(rows, LastSignal(s, update)) == rows && Next(s, update).stats == NewStats(s, update)
  {
    hide Assigned, Unlisted, Without;
    assert LastSignal(s, update) == [] || LastSignal(s, update)[1..] == [];
  }

  /** The list is in step after every update, whatever the order of its announcements. */
  lemma MirrorStep(rows: multiset<string>, s: State, e: Event)
    requires Mirrors(rows, s) && Possible(s, e)
    ensures Mirrors(Replayed(rows, e.signals), Next(s, e.update))
  {
    hide Replayed, NewStats, Next, Removals, Additions, LastSignal, IsOrderOf, Selectable;
    var lost, gained :|
      && IsOrderOf(lost, s.stats.Keys - NewStats(s, e.update).Keys)
      && IsOrderOf(gained, NewStats(s, e.update).Keys - s.stats.Keys)
      && e.signals == Removals(lost) + Additions(gained) + LastSignal(s, e.update);
    forall rows ensures Replayed(rows, LastSignal(s, e.update)) == rows {
      LastSignalShowsNothing(s, e.update, rows);
    }
    LastSignalShowsNothing(s, e.update, rows);
    ReplayAnnounced(s.stats.Keys, NewStats(s, e.update).Keys, lost, gained, LastSignal(s, e.update));
  }

  lemma SelectionStep(s: State, e: Event)
    requires SelectionsKnown(s) && Possible(s, e)
    ensures SelectionsKnown(Next(s, e.update))
  {
    var gone :=
      if e.update.NewProjects? then Unlisted(s, e.update.projects) else s.stats.Keys - NewStats(s, e.update).Keys;
    WithoutKnown(s.selectedProjects, gone);
  }

  lemma {:induction false} WithoutKnown(list: seq<string>, gone: set<string>)
    requires NoDuplicates(list)
    ensures NoDuplicates(Without(list, gone))
    ensures forall name :: name in Without(list, gone) <==> name in list && name !in gone
  {
    if list != [] {
      var rest := list[1..];
      assert list == [list[0]] + rest && forall k :: 0 <= k < |rest| ==> rest[k] == list[k + 1];
      WithoutKnown(rest, if list[0] in gone then gone - {list[0]} else gone);
    }
  }

  /**
    In every run both selections stay within the projects that have statistics, and a list that
    follows the signals alone has exactly one row for each of them.
  */
  lemma {:induction false} SelectionsAndListOverRuns(s: State, rows: multiset<string>, events: seq<Event>)
    requires SelectionsKnown(s) && Mirrors(rows, s) && IsRun(s, events)
    ensures SelectionsKnown(After(s, events)) && Mirrors(ReplayedAll(rows, events), After(s, events))
    decreases |events|
  {
    hide SelectionsKnown, Mirrors, Possible, Next, Replayed;
    if events != [] {
      SelectionStep(s, events[0]);
      MirrorStep(rows, s, events[0]);
      SelectionsAndListOverRuns(Next(s, events[0].update), Replayed(rows, events[0].signals), events[1..]);
    }
  }

  lemma FromTheStart(events: seq<Event>)
    requires IsRun(START, events)
    ensures SelectionsKnown(After(START, events))
    ensures Mirrors(ReplayedAll(multiset{}, events), After(START, events))
  {
    assert multiset{} == multiset(START.stats.Keys);
    SelectionsAndListOverRuns(START, multiset{}, events);
  }

  // ----- which statistics are kept -----

  /** The name under which statistics are filed: that of the first project with their url. */
  predicate FiledUnder(projects: seq<Project>, ps: ProjectStatistics, name: string) {
    var i := FindUrl(projects, ps.project.url);
    i < |projects| && projects[i].name == name
  }

  /** The first statistics that are filed under the name. */
  predicate FirstUnder(projects: seq<Project>, statistics: seq<ProjectStatistics>, name: string, i: nat) {
    && i < |statistics| && FiledUnder(projects, statistics[i], name)
    && forall j :: 0 <= j < i ==> !FiledUnder(projects, statistics[j], name)
  }

  lemma LastAssigned(projects: seq<Project>, statistics: seq<ProjectStatistics>, name: string)
    requires statistics != []
    ensures var before, last := Assigned(projects, statistics[..|statistics| - 1]), statistics[|statistics| - 1];
            var after := Assigned(projects, statistics);
            && (name in after <==> name in before || FiledUnder(projects, last, name))
            && (name in after ==> after[name] == if name in before then before[name] else last)
  {
  }

  lemma {:induction false} NeverFiled(projects: seq<Project>, statistics: seq<ProjectStatistics>, name: string)
    requires forall j :: 0 <= j < |statistics| ==> !FiledUnder(projects, statistics[j], name)
    ensures name !in Assigned(projects, statistics)
  {
    hide FiledUnder, Assigned;
    if statistics != [] {
      NeverFiled(projects, statistics[..|statistics| - 1], name);
      LastAssigned(projects, statistics, name);
    } else {
      NoneAssigned(projects);
    }
  }

  lemma NoneAssigned(projects: seq<Project>)
    ensures Assigned(projects, []) == map[]
  {
  }

  /** A name is shown with the first statistics that are filed under it, and by `NeverFiled` not without any. */
  lemma {:induction false} FirstStatisticsWin(projects: seq<Project>, statistics: seq<ProjectStatistics>,
                                              name: string, i: nat)
    requires FirstUnder(projects, statistics, name, i)
    ensures name in Assigned(projects, statistics) && Assigned(projects, statistics)[name] == statistics[i]
    decreases |statistics|
  {
    hide FiledUnder, Assigned;
    var front := statistics[..|statistics| - 1];
    LastAssigned(projects, statistics, name);
    if i < |front| {
      FirstStatisticsWin(projects, front, name, i);
    } else {
      NeverFiled(projects, front, name);
    }
  }

  /** The first statistics under a name that some are filed under. */
  lemma FindFirstUnder(projects: seq<Project>, statistics: seq<ProjectStatistics>, name: string, some: nat)
      returns (i: nat)
    requires some < |statistics| && FiledUnder(projects, statistics[some], name)
    ensures FirstUnder(projects, statistics, name, i) && i <= some
  {
    i := 0;
    while !FiledUnder(projects, statistics[i], name)
      invariant i <= some
      invariant forall j :: 0 <= j < i ==> !FiledUnder(projects, statistics[j], name)
      decreases some - i
    {
      i := i + 1;
    }
  }

  /** All statistics of listed projects are shown, each under the name of its project. */
  ghost predicate AllShown(projects: seq<Project>, statistics: seq<ProjectStatistics>) {
    forall i, name | 0 <= i < |statistics| && FiledUnder(projects, statistics[i], name) ::
      name in Assigned(projects, statistics) && Assigned(projects, statistics)[name] == statistics[i]
  }

  /** Different statistics fall together under one name. */
  ghost predicate NamesCollide(projects: seq<Project>, statistics: seq<ProjectStatistics>) {
    exists i, j, name ::
      && 0 <= i < j < |statistics| && statistics[i] != statistics[j]
      && FiledUnder(projects, statistics[i], name) && FiledUnder(projects, statistics[j], name)
  }

  /** A name shows one of the statistics filed under it. */
  lemma ShownAreSame(projects: seq<Project>, statistics: seq<ProjectStatistics>, i: nat, j: nat, name: string)
    requires AllShown(projects, statistics) && i < |statistics| && j < |statistics|
    requires FiledUnder(projects, statistics[i], name) && FiledUnder(projects, statistics[j], name)
    ensures statistics[i] == statistics[j]
  {
    hide FiledUnder, Assigned;
    assert Assigned(projects, statistics)[name] == statistics[i];
  }

  /** For all projects and statistics: every listed project's statistics are shown if and only if no names collide. */
  lemma AllShownIffNoCollision(projects: seq<Project>, statistics: seq<ProjectStatistics>)
    ensures AllShown(projects, statistics) <==> !NamesCollide(projects, statistics)
  {
    hide FiledUnder, Assigned;
    if AllShown(projects, statistics) {
      forall i, j, name | 0 <= i < j < |statistics| && FiledUnder(projects, statistics[i], name)
                          && FiledUnder(projects, statistics[j], name)
        ensures statistics[i] == statistics[j]
      {
        ShownAreSame(projects, statistics, i, j, name);
      }
    }
    if !NamesCollide(projects, statistics) {
      forall i, name | 0 <= i < |statistics| && FiledUnder(projects, statistics[i], name)
        ensures name in Assigned(projects, statistics) && Assigned(projects, statistics)[name] == statistics[i]
      {
        var first := FindFirstUnder(projects, statistics, name, i);
        FirstStatisticsWin(projects, statistics, name, first);
        assert first == i || statistics[first] == statistics[i];
      }
    }
  }

  const TWINS := [Project("Climate", "https://one.example"), Project("Climate", "https://two.example")]
  const OF_TWINS := [ProjectStatistics(TWINS[0], map[1 := 10]), ProjectStatistics(TWINS[1], map[1 := 20])]

  /** Two listed projects with one name: the second one's statistics are not shown. */
  lemma TwinIsNotShown()
    ensures Listed(TWINS, OF_TWINS[1].project.url) && OF_TWINS[1] !in Assigned(TWINS, OF_TWINS).Values
    ensures !AllShown(TWINS, OF_TWINS)
  {
    assert TWINS[0].url[8] != TWINS[1].url[8];
    assert FindUrl(TWINS, TWINS[0].url) == 0;
    assert FindUrl(TWINS, TWINS[1].url) == 1 by {
      assert TWINS[1..] == [TWINS[1]] && FindUrl(TWINS[1..], TWINS[1].url) == 0;
    }
    assert OF_TWINS[..1] == [OF_TWINS[0]] && OF_TWINS[..1][..0] == [];
    assert Assigned(TWINS, OF_TWINS[..1]) == map["Climate" := OF_TWINS[0]];
    assert Assigned(TWINS, OF_TWINS) == map["Climate" := OF_TWINS[0]];
    assert OF_TWINS[0].series[1] != OF_TWINS[1].series[1];
    assert FiledUnder(TWINS, OF_TWINS[0], "Climate") && FiledUnder(TWINS, OF_TWINS[1], "Climate");
    AllShownIffNoCollision(TWINS, OF_TWINS);
  }
}
