/**
  The parser of preferences (`parse_` for `GlobalPreferences` and its helpers in
  lib/src/rpc_parsing.cc). It fills in a record that the caller provides.
*/
module PreferencesReader {
  import opened Wrappers
  import opened Xml
  import opened Numbers
  import opened Preferences

  /** The content of the first child with this tag. */
  function Content(children: seq<Node>, tag: string): Option<string> {
    var i := FindChild(children, tag);
    if i < |children| then Some(children[i].content) else None
  }

  /** A flag that is not there is false. */
  function FlagAt(children: seq<Node>, tag: string): bool {
    match Content(children, tag)
    case Some(text) => text != "0"
    case None => false
  }

  /** A tag that is not there is skipped; `None` is the exception for a text that is no number. */
  function DecimalAt(children: seq<Node>, tag: string, dest: int): Option<int> {
    match Content(children, tag)
    case Some(text) => ParseDecimal(text)
    case None => Some(dest)
  }

  function IntAt(children: seq<Node>, tag: string, dest: Int32): Option<Int32> {
    match Content(children, tag)
    case Some(text) => ParseInt(text)
    case None => Some(dest)
  }

  function SpanAt(children: seq<Node>, start: string, end: string, dest: TimeSpan): Option<TimeSpan> {
    match DecimalAt(children, start, dest.start)
    case None => None
    case Some(s) =>
      match DecimalAt(children, end, dest.end)
      case None => None
      case Some(e) => Some(TimeSpan(s, e))
  }

  // ----- scalar fields -----

  predicate LimitsReadable(children: seq<Node>) {
    forall t <- LIMITS :: DecimalAt(children, t, 0).Some?
  }

  function FlagsOf(children: seq<Node>, flags: map<string, bool>): map<string, bool> {
    map t | t in flags :: if t in FLAGS then FlagAt(children, t) else flags[t]
  }

  function LimitsOf(children: seq<Node>, limits: map<string, int>): map<string, int> {
    map t | t in limits ::
      if t in LIMITS then
        (match DecimalAt(children, t, limits[t]) case Some(v) => v case None => limits[t])
      else
        limits[t]
  }

  function Scalars(children: seq<Node>, dest: GlobalPreferences): Option<GlobalPreferences> {
    if !LimitsReadable(children) then None
    else
      var period := IntAt(children, PERIOD, dest.periodDays);
      var cpu, net := SpanAt(children, START, END, dest.cpuTimes), SpanAt(children, NET_START, NET_END, dest.netTimes);
      if period.None? || cpu.None? || net.None? then None
      else Some(GlobalPreferences(FlagsOf(children, dest.flags), LimitsOf(children, dest.limits),
                                  period.value, cpu.value, net.value, dest.dailyCpuTimes, dest.dailyNetTimes))
  }

  // ----- days -----

  /** A number outside of the enumeration becomes its unknown member. */
  function DayOf(i: int): Day {
    if i < 0 || i >= UNKNOWN_DAY then UNKNOWN_DAY else i
  }

  /** The span of a day; a start without an end violates an assertion. */
  function DaySpan(children: seq<Node>, start: string, end: string): Option<TimeSpan> {
    if Content(children, end).None? then None else SpanAt(children, start, end, TimeSpan(0, 0))
  }

  /** `emplace` keeps a span that is already there. */
  function Emplaced(times: map<Day, TimeSpan>, day: Day, span: TimeSpan): map<Day, TimeSpan> {
    if day in times then times else times[day := span]
  }

  /** The times with those of one day's node; `None` if it has a span but no defined one, or no day for it. */
  function WithSpan(children: seq<Node>, day: Option<Day>, start: string, end: string, times: map<Day, TimeSpan>)
    : Option<map<Day, TimeSpan>>
  {
    if Content(children, start).None? then Some(times)
    else
      match DaySpan(children, start, end)
      case None => None
      case Some(span) => if day.None? then None else Some(Emplaced(times, day.value, span))
  }

  function WithDay(children: seq<Node>, p: GlobalPreferences): Option<GlobalPreferences> {
    var text := Content(children, DAY_OF_WEEK);
    if text.Some? && ParseInt(text.value).None? then None
    else
      var day := if text.None? then None else Some(DayOf(ParseInt(text.value).value));
      var cpu := WithSpan(children, day, START, END, p.dailyCpuTimes);
      var net := WithSpan(children, day, NET_START, NET_END, p.dailyNetTimes);
      if cpu.None? || net.None? then None else Some(p.(dailyCpuTimes := cpu.value, dailyNetTimes := net.value))
  }

  function WithDays(children: seq<Node>, p: GlobalPreferences): Option<GlobalPreferences> {
    if children == [] then Some(p)
    else if children[0].tag != DAY_PREFS then WithDays(children[1..], p)
    else
      match WithDay(children[0].children, p)
      case None => None
      case Some(p') => WithDays(children[1..], p')
  }

  /** What the parser makes of a node; `None` if it throws or has no defined result. */
  function Parsed(children: seq<Node>, dest: GlobalPreferences): Option<GlobalPreferences> {
    match Scalars(children, dest)
    case None => None
    case Some(p) => WithDays(children, p)
  }

  // ----- the parser -----

  method ReadPreferences(node: Node, dest: GlobalPreferences) returns (r: Option<GlobalPreferences>)
    requires Complete(dest)
    ensures r == Parsed(node.children, dest)
  {
    r := ReadScalars(node.children, dest);
    match r
    case None =>
    case Some(p) => r := ReadDays(node.children, p);
  }

  method ReadScalars(children: seq<Node>, dest: GlobalPreferences) returns (r: Option<GlobalPreferences>)
    requires Complete(dest)
    ensures r == Scalars(children, dest)
  {
    hide FLAGS, LIMITS, FlagAt, DecimalAt, IntAt, SpanAt;
    var flags := dest.flags;
    for i := 0 to |FLAGS|
      invariant flags.Keys == dest.flags.Keys
      invariant forall t <- dest.flags :: flags[t] == if t in FLAGS[..i] then FlagAt(children, t) else dest.flags[t]
    {
      assert FLAGS[i] in FLAGS && FLAGS[..i + 1] == FLAGS[..i] + [FLAGS[i]];
      flags := flags[FLAGS[i] := FlagAt(children, FLAGS[i])];
    }
    assert FLAGS[..|FLAGS|] == FLAGS;
    assert flags == FlagsOf(children, dest.flags);
    var limits := ReadLimits(children, dest);
    if limits.None? {
      return None;
    }
    var period := IntAt(children, PERIOD, dest.periodDays);
    var cpu := SpanAt(children, START, END, dest.cpuTimes);
    var net := SpanAt(children, NET_START, NET_END, dest.netTimes);
    if period.None? || cpu.None? || net.None? {
      return None;
    }
    r := Some(GlobalPreferences(flags, limits.value, period.value, cpu.value, net.value,
                                dest.dailyCpuTimes, dest.dailyNetTimes));
  }

  method ReadLimits(children: seq<Node>, dest: GlobalPreferences) returns (r: Option<map<string, int>>)
    requires Complete(dest)
    ensures r == if LimitsReadable(children) then Some(LimitsOf(children, dest.limits)) else None
  {
    hide LIMITS;
    var limits := dest.limits;
    for i := 0 to |LIMITS|
      invariant limits.Keys == dest.limits.Keys
      invariant forall t <- LIMITS[..i] :: DecimalAt(children, t, 0).Some?
      invariant forall t <- dest.limits ::
                  limits[t] == if t in LIMITS[..i]
                               then (match DecimalAt(children, t, dest.limits[t]) case Some(v) => v case None => 0)
                               else dest.limits[t]
    {
      var tag := LIMITS[i];
      assert tag in LIMITS && LIMITS[..i + 1] == LIMITS[..i] + [tag];
      match DecimalAt(children, tag, limits[tag]) {
        case None => return None;
        case Some(value) => limits := limits[tag := value];
      }
    }
    assert LIMITS[..|LIMITS|] == LIMITS;
    assert limits == LimitsOf(children, dest.limits);
    r := Some(limits);
  }

  /** The position of the next node of a day, or the number of children. */
  function NextDay(children: seq<Node>, i: nat): (j: nat)
    requires i <= |children|
    ensures i <= j <= |children|
    ensures j < |children| ==> children[j].tag == DAY_PREFS
  {
    i + FindChild(children[i..], DAY_PREFS)
  }

  method ReadDays(children: seq<Node>, p: GlobalPreferences) returns (r: Option<GlobalPreferences>)
    ensures r == WithDays(children, p)
  {
    hide WithDay, WithDays, NextDay;
    r := Some(p);
    SkipToDay(children, 0, p);
    assert children[0..] == children;
    var i := NextDay(children, 0);
    while i < |children|
      invariant i <= |children| && r.Some?
      invariant WithDays(children, p) == WithDays(children[i..], r.value)
      invariant i < |children| ==> children[i].tag == DAY_PREFS
    {
      OneDay(children, i, r.value);
      r := WithDay(children[i].children, r.value);
      if r.None? {
        return;
      }
      SkipToDay(children, i + 1, r.value);
      i := NextDay(children, i + 1);
    }
    assert children[i..] == [];
    NoDays(r.value);
  }

  lemma NoDays(p: GlobalPreferences)
    ensures WithDays([], p) == Some(p)
  {
  }

  lemma OneDay(children: seq<Node>, i: nat, p: GlobalPreferences)
    requires i < |children| && children[i].tag == DAY_PREFS
    ensures WithDays(children[i..], p)
         == match WithDay(children[i].children, p)
            case None => None
            case Some(p') => WithDays(children[i + 1..], p')
  {
    hide WithDay;
    assert children[i..][1..] == children[i + 1..];
  }

  lemma {:induction false} SkipToDay(children: seq<Node>, i: nat, p: GlobalPreferences)
    requires i <= |children|
    ensures WithDays(children[i..], p) == WithDays(children[NextDay(children, i)..], p)
    decreases |children| - i
  {
    hide WithDay;
    if i < |children| && children[i].tag != DAY_PREFS {
      assert children[i..][1..] == children[i + 1..];
      SkipToDay(children, i + 1, p);
    }
  }
}
