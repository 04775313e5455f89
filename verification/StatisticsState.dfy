/**
  The state shared by the widgets of the statistics tab (TabState and ProjectsWidget in
  ui/qt/tabs/statistics_tab.cc): which projects have statistics, which are selected, and the signals
  that tell the list widget what was added and removed.
*/
module StatisticsState {
  import opened Orders
  import opened Statistics

  datatype Project = Project(name: string, url: string)

  datatype ProjectStatistics = ProjectStatistics(project: Project, series: Series)

  datatype ViewMode = OneProject | AllSeparate | AllTogether | AllSum

  datatype Signal = Added(name: string) | Removed(name: string) | SelectionChanged | StatisticsUpdated
                  | ViewModeChanged(before: ViewMode, after: ViewMode)

  /** The empty name stands for no selected project. */
  datatype State = State(projects: seq<Project>, stats: map<string, ProjectStatistics>, mode: ViewMode,
                         selectedProject: string, selectedProjects: seq<string>)

  const START := State([], map[], AllSeparate, "", [])

  // ----- selections -----

  /** QStringList::removeOne: the first occurrence goes. */
  function RemoveOne(list: seq<string>, name: string): seq<string> {
    if list == [] then []
    else if list[0] == name then list[1..]
    else [list[0]] + RemoveOne(list[1..], name)
  }

  /** The first occurrence of each of the names goes. */
  function Without(list: seq<string>, gone: set<string>): seq<string> {
    if list == [] then []
    else if list[0] in gone then Without(list[1..], gone - {list[0]})
    else [list[0]] + Without(list[1..], gone)
  }

  lemma {:induction false} WithoutNone(list: seq<string>)
    ensures Without(list, {}) == list
  {
    if list != [] {
      WithoutNone(list[1..]);
    }
  }

  lemma {:induction false} RemoveAnother(list: seq<string>, gone: set<string>, name: string)
    requires name !in gone
    ensures RemoveOne(Without(list, gone), name) == Without(list, gone + {name})
  {
    if list != [] {
      var rest := list[1..];
      if list[0] in gone {
        RemoveAnother(rest, gone - {list[0]}, name);
        assert gone + {name} - {list[0]} == gone - {list[0]} + {name};
      } else if list[0] == name {
        assert gone + {name} - {name} == gone;
      } else {
        RemoveAnother(rest, gone, name);
      }
    }
  }

  /** Removed names are still selected exactly when one of them was selected twice. */
  lemma {:induction false} StaysSelectedIff(list: seq<string>, gone: set<string>)
    ensures (exists name <- gone :: name in Without(list, gone))
       <==> (exists i, j :: 0 <= i < j < |list| && list[i] == list[j] && list[i] in gone)
  {
    if list != [] {
      var rest := list[1..];
      if list[0] in gone {
        StaysSelectedIff(rest, gone - {list[0]});
        OtherNames(rest, gone - {list[0]}, list[0]);
        TailPairs(list, gone);
      } else {
        StaysSelectedIff(rest, gone);
        TailPairs(list, gone);
      }
    }
  }

  /** Of the names that go one occurrence goes, of the others none. */
  lemma {:induction false} WithoutCounts(list: seq<string>, gone: set<string>, name: string)
    ensures multiset(Without(list, gone))[name]
         == multiset(list)[name] - if name in gone && name in list then 1 else 0
  {
    if list != [] {
      var rest := list[1..];
      assert list == [list[0]] + rest;
      var left := if list[0] in gone then gone - {list[0]} else gone;
      WithoutCounts(rest, left, name);
    }
  }

  /** From a selection without duplicates exactly the names that go are dropped, and the others keep their order. */
  lemma {:induction false} WithoutIsRest(list: seq<string>, gone: set<string>)
    requires NoDuplicates(list)
    ensures Without(list, gone) == Remaining(list, gone)
  {
    if list != [] {
      var rest := list[1..];
      assert list[0] !in rest;
      if list[0] in gone {
        WithoutIsRest(rest, gone - {list[0]});
        SameRemaining(rest, gone, list[0]);
      } else {
        WithoutIsRest(rest, gone);
      }
    }
  }

  function Remaining(list: seq<string>, gone: set<string>): seq<string> {
    if list == [] then []
    else (if list[0] in gone then [] else [list[0]]) + Remaining(list[1..], gone)
  }

  lemma {:induction false} SameRemaining(list: seq<string>, gone: set<string>, name: string)
    requires name !in list
    ensures Remaining(list, gone - {name}) == Remaining(list, gone)
  {
    if list != [] {
      assert list[0] in list && forall other <- list[1..] :: other in list;
      SameRemaining(list[1..], gone, name);
    }
  }

  lemma {:induction false} OtherNames(list: seq<string>, gone: set<string>, name: string)
    requires name !in gone
    ensures name in Without(list, gone) <==> name in list
  {
    if list != [] {
      OtherNames(list[1..], if list[0] in gone then gone - {list[0]} else gone, name);
    }
  }

  /** A name of `gone` occurs twice in a list: its first entry again in the tail, or the tail has one. */
  lemma TailPairs(list: seq<string>, gone: set<string>)
    requires list != []
    ensures (exists i, j :: 0 <= i < j < |list| && list[i] == list[j] && list[i] in gone)
       <==> (list[0] in gone && list[0] in list[1..])
            || (exists i, j :: 0 <= i < j < |list[1..]| && list[1..][i] == list[1..][j] && list[1..][i] in gone)
  {
    var rest := list[1..];
    assert forall k :: 0 <= k < |rest| ==> rest[k] == list[k + 1];
    if i, j :| 0 <= i < j < |list| && list[i] == list[j] && list[i] in gone {
      if i > 0 {
        assert rest[i - 1] == rest[j - 1];
      } else {
        assert rest[j - 1] == list[0];
      }
    }
    if i, j :| 0 <= i < j < |rest| && rest[i] == rest[j] && rest[i] in gone {
      assert list[i + 1] == list[j + 1];
    }
  }

  // ----- the updates -----

  /** `std::find_if` by url: the position of the first such project, or the number of projects. */
  function FindUrl(projects: seq<Project>, url: string): (i: nat)
    ensures i <= |projects| && forall j :: 0 <= j < i ==> projects[j].url != url
    ensures i < |projects| ==> projects[i].url == url
  {
    if projects == [] || projects[0].url == url then 0 else 1 + FindUrl(projects[1..], url)
  }

  predicate Listed(projects: seq<Project>, url: string) {
    FindUrl(projects, url) < |projects|
  }

  /** The statistics by project name; `emplace` keeps what is there. */
  function Assigned(projects: seq<Project>, statistics: seq<ProjectStatistics>): map<string, ProjectStatistics> {
    if statistics == [] then map[]
    else
      var before, last := Assigned(projects, statistics[..|statistics| - 1]), statistics[|statistics| - 1];
      var i := FindUrl(projects, last.project.url);
      if i == |projects| || projects[i].name in before then before else before[projects[i].name := last]
  }

  function Unlisted(s: State, projects: seq<Project>): set<string> {
    set name | name in s.stats && !Listed(projects, s.stats[name].project.url)
  }

  /** Names have lost their statistics. */
  function Deselected(s: State, gone: set<string>): State {
    s.(selectedProject := if s.selectedProject in gone then "" else s.selectedProject,
       selectedProjects := Without(s.selectedProjects, gone))
  }

  datatype Update =
    | NewProjects(projects: seq<Project>)
    | NewStatistics(statistics: seq<ProjectStatistics>)
    | Select(names: seq<string>)
    | ChangeMode(mode: ViewMode)

  function NewStats(s: State, update: Update): map<string, ProjectStatistics> {
    match update
    case NewProjects(projects) => s.stats - Unlisted(s, projects)
    case NewStatistics(statistics) => Assigned(s.projects, statistics)
    case _ => s.stats
  }

  function Next(s: State, update: Update): State {
    match update
    case NewProjects(projects) =>
      Deselected(s, Unlisted(s, projects)).(projects := projects, stats := NewStats(s, update))
    case NewStatistics(statistics) =>
      Deselected(s, s.stats.Keys - NewStats(s, update).Keys).(stats := NewStats(s, update))
    case Select(names) =>
      if s.mode == OneProject then s.(selectedProject := if names == [] then "" else names[0])
      else s.(selectedProjects := names)
    case ChangeMode(mode) => s.(mode := mode)
  }

  // ----- the signals -----

  function Removals(names: seq<string>): seq<Signal> {
    seq(|names|, i requires 0 <= i < |names| => Removed(names[i]))
  }

  function Additions(names: seq<string>): seq<Signal> {
    seq(|names|, i requires 0 <= i < |names| => Added(names[i]))
  }

  function LastSignal(s: State, update: Update): seq<Signal> {
    match update
    case NewProjects(_) => []
    case NewStatistics(_) => [StatisticsUpdated]
    case Select(_) => [SelectionChanged]
    case ChangeMode(mode) => [ViewModeChanged(s.mode, mode)]
  }

  /** Each lost name is announced once, then each new name, then the update itself. */
  ghost predicate Announces(s: State, update: Update, signals: seq<Signal>) {
    exists lost, gained ::
      && IsOrderOf(lost, s.stats.Keys - NewStats(s, update).Keys)
      && IsOrderOf(gained, NewStats(s, update).Keys - s.stats.Keys)
      && signals == Removals(lost) + Additions(gained) + LastSignal(s, update)
  }

  class TabState {
    var projects: seq<Project>
    var stats: map<string, ProjectStatistics>
    var mode: ViewMode
    var selectedProject: string
    var selectedProjects: seq<string>
    var signals: seq<Signal>   // everything emitted so far

    function Current(): State
      reads this
    {
      State(projects, stats, mode, selectedProject, selectedProjects)
    }

    constructor ()
      ensures Current() == START && signals == []
    {
      projects, stats, mode, selectedProject, selectedProjects := [], map[], AllSeparate, "", [];
      signals := [];
    }

    /** What both updates do with a project that has lost its statistics. */
    method Forget(name: string)
      modifies this
      ensures Current() == Forgotten(old(Current()), name) && signals == old(signals) + [Removed(name)]
    {
      if selectedProject == name {
        selectedProject := "";
      }
      selectedProjects := RemoveOne(selectedProjects, name);
      signals := signals + [Removed(name)];
    }

    method UpdateProjects(latest: seq<Project>)
      modifies this
      ensures Current() == Next(old(Current()), NewProjects(latest))
      ensures projects == latest && mode == old(mode)
      ensures forall name :: name in stats <==>
                name in old(stats) && exists p <- latest :: p.url == old(stats)[name].project.url
      ensures forall name <- stats :: stats[name] == old(stats)[name]
      ensures selectedProject
           == if old(selectedProject) in old(stats) && old(selectedProject) !in stats then "" else old(selectedProject)
      ensures selectedProjects == Without(old(selectedProjects), old(stats).Keys - stats.Keys)
      ensures old(signals) <= signals && Announces(old(Current()), NewProjects(latest), signals[|old(signals)|..])
    {
      hide Lost, Unlisted, IsOrderOf, Listed, RemoveOne, Removals, Announces, Next;
      projects := latest;
      ghost var before := old(Current());
      ghost var lost: seq<string> := [];
      var todo := stats.Keys;
      NothingAnnounced();
      NoneLost(before, latest);
      while todo != {}
        invariant todo <= before.stats.Keys && IsOrderOf(lost, Unlisted(before, latest) - todo)
        invariant Current() == Lost(before, latest, Unlisted(before, latest) - todo)
        invariant signals == old(signals) + Removals(lost)
        decreases |todo|
      {
        var name :| name in todo;
        LoseOne(before, latest, todo, lost, name);
        AnnounceRemoval(old(signals), lost, name);
        if !Listed(latest, stats[name].project.url) {
          Forget(name);
          stats := stats - {name};
          lost := lost + [name];
        }
        todo := todo - {name};
      }
      assert Unlisted(before, latest) - todo == Unlisted(before, latest);
      AllLost(before, latest, lost);
      ListedStay(before, latest);
      assert signals[|old(signals)|..] == Removals(lost);
    }

    method AssignStatistics(statistics: seq<ProjectStatistics>)
      modifies this`stats
      ensures stats == Assigned(projects, statistics)
    {
      stats := map[];
      for i := 0 to |statistics|
        invariant stats == Assigned(projects, statistics[..i])
      {
        var p := FindUrl(projects, statistics[i].project.url);
        if p < |projects| && projects[p].name !in stats {
          stats := stats[projects[p].name := statistics[i]];
        }
        assert statistics[..i + 1][..i] == statistics[..i];
      }
      assert statistics[..|statistics|] == statistics;
    }

    method ForgetLost(before: set<string>) returns (ghost lost: seq<string>)
      modifies this
      ensures IsOrderOf(lost, before - stats.Keys) && signals == old(signals) + Removals(lost)
      ensures Current() == Deselected(old(Current()), before - stats.Keys)
    {
      hide Deselected, IsOrderOf, Forgotten, Removals;
      ghost var all := before - stats.Keys;
      lost := [];
      var todo := before;
      NothingAnnounced();
      DeselectNone(Current());
      assert all - todo == {};
      while todo != {}
        invariant todo <= before && stats == old(stats) && all == before - stats.Keys
        invariant IsOrderOf(lost, all - todo) && signals == old(signals) + Removals(lost)
        invariant Current() == Deselected(old(Current()), all - todo)
        decreases |todo|
      {
        var name :| name in todo;
        OneDone(all, todo, name);
        if name !in stats {
          OneMore(lost, all - todo, name);
          AnnounceRemoval(old(signals), lost, name);
          DeselectAnother(old(Current()), all - todo, name);
          ForgetKeepsStats(Current(), name);
          Forget(name);
          lost := lost + [name];
        }
        todo := todo - {name};
      }
      assert all - todo == all;
    }

    method AnnounceGained(before: set<string>) returns (ghost gained: seq<string>)
      modifies this`signals
      ensures IsOrderOf(gained, stats.Keys - before) && signals == old(signals) + Additions(gained)
    {
      hide IsOrderOf, Additions;
      ghost var all := stats.Keys - before;
      gained := [];
      var todo := stats.Keys;
      NothingAnnounced();
      assert all - todo == {};
      while todo != {}
        invariant todo <= stats.Keys
        invariant IsOrderOf(gained, all - todo) && signals == old(signals) + Additions(gained)
        decreases |todo|
      {
        var name :| name in todo;
        OneDone(all, todo, name);
        if name !in before {
          OneMore(gained, all - todo, name);
          AnnounceAddition(old(signals), gained, name);
          signals := signals + [Added(name)];
          gained := gained + [name];
        }
        todo := todo - {name};
      }
      assert all - todo == all;
    }

    method UpdateStatistics(statistics: seq<ProjectStatistics>)
      modifies this
      ensures Current() == Next(old(Current()), NewStatistics(statistics))
      ensures projects == old(projects) && mode == old(mode) && stats == Assigned(projects, statistics)
      ensures selectedProject
           == if old(selectedProject) in old(stats) && old(selectedProject) !in stats then "" else old(selectedProject)
      ensures selectedProjects == Without(old(selectedProjects), old(stats).Keys - stats.Keys)
      ensures signals != [] && signals[|signals| - 1] == StatisticsUpdated
      ensures old(signals) <= signals
      ensures Announces(old(Current()), NewStatistics(statistics), signals[|old(signals)|..])
    {
      hide Removals, Additions, IsOrderOf, Assigned, Without;
      ghost var before := Current();
      var oldNames := stats.Keys;
      AssignStatistics(statistics);
      ghost var lost := ForgetLost(oldNames);
      ghost var gained := AnnounceGained(oldNames);
      signals := signals + [StatisticsUpdated];
      assert signals[|old(signals)|..] == Removals(lost) + Additions(gained) + [StatisticsUpdated];
    }

    /** In the one-project mode the list widget allows a single selection. */
    method ChangeProjectSelection(names: seq<string>)
      requires mode == OneProject ==> |names| <= 1
      modifies this
      ensures Current() == Next(old(Current()), Select(names))
      ensures old(signals) <= signals && Announces(old(Current()), Select(names), signals[|old(signals)|..])
      ensures projects == old(projects) && stats == old(stats) && mode == old(mode)
      ensures mode == OneProject ==>
                && selectedProject == (if names == [] then "" else names[0])
                && selectedProjects == old(selectedProjects)
      ensures mode != OneProject ==> selectedProjects == names && selectedProject == old(selectedProject)
      ensures signals == old(signals) + [SelectionChanged]
    {
      hide Announces;
      if mode == OneProject {
        selectedProject := if names == [] then "" else names[0];
      } else {
        selectedProjects := names;
      }
      signals := signals + [SelectionChanged];
      OnlyLastSignal(old(Current()), Select(names));
    }

    method ChangeViewMode(newMode: ViewMode)
      modifies this
      ensures Current() == Next(old(Current()), ChangeMode(newMode))
      ensures old(signals) <= signals && Announces(old(Current()), ChangeMode(newMode), signals[|old(signals)|..])
      ensures mode == newMode && projects == old(projects) && stats == old(stats)
      ensures selectedProject == old(selectedProject) && selectedProjects == old(selectedProjects)
      ensures signals == old(signals) + [ViewModeChanged(old(mode), newMode)]
    {
      hide Announces;
      signals := signals + [ViewModeChanged(mode, newMode)];
      mode := newMode;
      OnlyLastSignal(old(Current()), ChangeMode(newMode));
    }

    method SelectedProjects() returns (names: seq<string>)
      ensures names == Selected(Current())
      ensures mode != OneProject ==> names == selectedProjects
      ensures mode == OneProject ==> names == if selectedProject == "" then [] else [selectedProject]
    {
      if mode == OneProject {
        names := if selectedProject == "" then [] else [selectedProject];
      } else {
        names := selectedProjects;
      }
    }

    /** The lookups succeed because the selections stay within the projects that have statistics. */
    method SelectedProjectStatistics() returns (selected: map<string, ProjectStatistics>)
      requires SelectionsKnown(Current())
      ensures selected == map name | name in stats && name in Selected(Current()) :: stats[name]
    {
      var names := SelectedProjects();
      selected := map[];
      for i := 0 to |names|
        invariant selected == map name | name in stats && name in names[..i] :: stats[name]
      {
        assert names[..i + 1] == names[..i] + [names[i]];
        if names[i] !in selected {
          selected := selected[names[i] := stats[names[i]]];
        }
      }
      assert names[..|names|] == names;
    }
  }

  function Selected(s: State): seq<string> {
    if s.mode == OneProject then (if s.selectedProject == "" then [] else [s.selectedProject]) else s.selectedProjects
  }

  /** A selection is read back as it was made, but in the one-project mode only if it is at most one proper name. */
  lemma SelectionIsReadIff(s: State, names: seq<string>)
    ensures Selected(Next(s, Select(names))) == names
       <==> s.mode != OneProject || names == [] || (|names| == 1 && names[0] != "")
  {
  }

  /** Each mode has its own selection, which the other one's changes leave as it is. */
  lemma ModesKeepTheirSelections(s: State, names: seq<string>, other: ViewMode)
    requires (s.mode == OneProject) != (other == OneProject)
    ensures var there := Next(Next(s, ChangeMode(other)), Select(names));
            Selected(Next(there, ChangeMode(s.mode))) == Selected(s)
  {
  }

  predicate SelectionsKnown(s: State) {
    && (s.selectedProject != "" ==> s.selectedProject in s.stats)
    && NoDuplicates(s.selectedProjects)
    && forall name <- s.selectedProjects :: name in s.stats
  }

  /** The state when the names in `done` have been dealt with. */
  function Lost(s: State, latest: seq<Project>, done: set<string>): State {
    Deselected(s, done).(projects := latest, stats := s.stats - done)
  }

  function Forgotten(s: State, name: string): State {
    s.(selectedProject := if s.selectedProject == name then "" else s.selectedProject,
       selectedProjects := RemoveOne(s.selectedProjects, name))
  }

  lemma NothingAnnounced()
    ensures IsOrderOf([], {}) && Removals([]) == [] && Additions([]) == []
  {
  }

  lemma NoneLost(s: State, latest: seq<Project>)
    ensures Unlisted(s, latest) - s.stats.Keys == {} && Lost(s, latest, {}) == s.(projects := latest)
  {
    WithoutNone(s.selectedProjects);
  }

  /** The statistics that stay are those of listed projects. */
  lemma ListedStay(s: State, latest: seq<Project>)
    ensures var t := Next(s, NewProjects(latest));
            && t.projects == latest && t.mode == s.mode
            && (forall name :: name in t.stats <==>
                  name in s.stats && exists p <- latest :: p.url == s.stats[name].project.url)
            && (forall name <- t.stats :: t.stats[name] == s.stats[name])
            && t.selectedProject
               == (if s.selectedProject in s.stats && s.selectedProject !in t.stats then "" else s.selectedProject)
            && t.selectedProjects == Without(s.selectedProjects, s.stats.Keys - t.stats.Keys)
  {
    var update := NewProjects(latest);
    assert s.stats.Keys - NewStats(s, update).Keys == Unlisted(s, latest);
    forall name | name in s.stats
      ensures name in NewStats(s, NewProjects(latest)) <==>
                exists p <- latest :: p.url == s.stats[name].project.url
    {
      var i := FindUrl(latest, s.stats[name].project.url);
    }
  }

  lemma OneDone(all: set<string>, todo: set<string>, name: string)
    requires name in todo
    ensures all - (todo - {name}) == if name in all then all - todo + {name} else all - todo
  {
  }

  lemma ForgetKeepsStats(s: State, name: string)
    ensures Forgotten(s, name).stats == s.stats
  {
  }

  lemma DeselectNone(s: State)
    ensures Deselected(s, {}) == s
  {
    WithoutNone(s.selectedProjects);
  }

  lemma DeselectAnother(s: State, done: set<string>, name: string)
    requires name !in done
    ensures Deselected(s, done + {name}) == Forgotten(Deselected(s, done), name)
  {
    RemoveAnother(s.selectedProjects, done, name);
  }

  lemma LoseOne(s: State, latest: seq<Project>, todo: set<string>, lost: seq<string>, name: string)
    requires name in todo && todo <= s.stats.Keys && IsOrderOf(lost, Unlisted(s, latest) - todo)
    ensures var done := Unlisted(s, latest) - todo;
            var next := Unlisted(s, latest) - (todo - {name});
            var now := Lost(s, latest, done);
            name in now.stats &&
            if Listed(latest, now.stats[name].project.url) then next == done
            else
              && IsOrderOf(lost + [name], next)
              && Lost(s, latest, next) == Forgotten(now, name).(stats := now.stats - {name})
  {
    hide IsOrderOf, Removals, Without, RemoveOne;
    var done := Unlisted(s, latest) - todo;
    var next := Unlisted(s, latest) - (todo - {name});
    if !Listed(latest, s.stats[name].project.url) {
      assert next == done + {name};
      OneMore(lost, done, name);
      DeselectAnother(s, done, name);
      assert s.stats - done - {name} == s.stats - next;
    } else {
      assert next == done;
    }
  }

  lemma AllLost(s: State, latest: seq<Project>, lost: seq<string>)
    requires IsOrderOf(lost, Unlisted(s, latest))
    ensures Lost(s, latest, Unlisted(s, latest)) == Next(s, NewProjects(latest))
    ensures Announces(s, NewProjects(latest), Removals(lost))
  {
    var update := NewProjects(latest);
    assert s.stats.Keys - NewStats(s, update).Keys == Unlisted(s, latest);
    assert NewStats(s, update).Keys - s.stats.Keys == {};
    assert IsOrderOf([], {});
    assert Removals(lost) == Removals(lost) + Additions([]) + LastSignal(s, update);
  }

  lemma OnlyLastSignal(s: State, update: Update)
    requires update.Select? || update.ChangeMode?
    ensures Announces(s, update, LastSignal(s, update))
  {
    assert s.stats.Keys - NewStats(s, update).Keys == {};
    assert IsOrderOf([], {});
    assert LastSignal(s, update) == Removals([]) + Additions([]) + LastSignal(s, update);
  }

  lemma OneMore(order: seq<string>, names: set<string>, name: string)
    requires IsOrderOf(order, names) && name !in names
    ensures IsOrderOf(order + [name], names + {name})
  {
    assert forall x :: x in order + [name] <==> x in order || x == name;
  }

  lemma AnnounceRemoval(earlier: seq<Signal>, order: seq<string>, name: string)
    ensures earlier + Removals(order + [name]) == earlier + Removals(order) + [Removed(name)]
  {
  }

  lemma AnnounceAddition(earlier: seq<Signal>, order: seq<string>, name: string)
    ensures earlier + Additions(order + [name]) == earlier + Additions(order) + [Added(name)]
  {
  }
}
