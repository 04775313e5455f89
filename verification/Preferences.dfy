/**
  The preferences of a client: the masked writer of the override request (SetGlobalPreferencesCommand
  in lib/src/rpc_command.cc) and the parser of what a client sends (lib/src/rpc_parsing.cc).

  The records' flags and limits are maps from the name of the field, which is also its tag.
*/
module Preferences {
  import opened Wrappers
  import opened Xml
  import opened Numbers

  const FLAGS: seq<string> := [
    "confirm_before_connecting", "dont_verify_images", "hangup_if_dialed", "leave_apps_in_memory",
    "run_gpu_if_user_active", "run_if_user_active", "run_on_batteries"]

  const LIMITS: seq<string> := [
    "cpu_scheduling_period_minutes", "cpu_usage_limit", "daily_xfer_limit_mb", "disk_interval",
    "disk_max_used_gb", "disk_max_used_pct", "disk_min_free_gb", "idle_time_to_run", "max_bytes_sec_down",
    "max_bytes_sec_up", "max_ncpus_pct", "ram_max_used_busy_pct", "ram_max_used_idle_pct", "suspend_cpu_usage",
    "vm_max_used_pct", "work_buf_additional_days", "work_buf_min_days"]

  /** The limits that are written even when they are not in the mask. */
  const DEFAULTS: map<string, int> := map[
    "disk_max_used_gb" := 0, "disk_max_used_pct" := 100 * MILLION, "disk_min_free_gb" := 0, "suspend_cpu_usage" := 0]

  const PERIOD := "daily_xfer_period_days"
  const START := "start_hour"
  const END := "end_hour"
  const NET_START := "net_start_hour"
  const NET_END := "net_end_hour"
  const DAY_PREFS := "day_prefs"
  const DAY_OF_WEEK := "day_of_week"

  /** The tags of the scalar fields, in the order they are written in. */
  const TAGS := FLAGS + LIMITS + [PERIOD, START, END, NET_START, NET_END]

  datatype TimeSpan = TimeSpan(start: int, end: int)

  /** The enumerators of `DayOfWeek`, Sunday to Saturday; 7 is its `UnknownToWoinc`. */
  type Day = d: int | 0 <= d < 8

  const UNKNOWN_DAY: Day := 7

  datatype GlobalPreferences = GlobalPreferences(
    flags: map<string, bool>,
    limits: map<string, int>,
    periodDays: Int32,
    cpuTimes: TimeSpan,
    netTimes: TimeSpan,
    dailyCpuTimes: map<Day, TimeSpan>,
    dailyNetTimes: map<Day, TimeSpan>)

  datatype Mask = Mask(flags: set<string>, limits: set<string>, periodDays: bool,
                       cpuTimes: bool, netTimes: bool, dailyCpuTimes: bool, dailyNetTimes: bool)

  /** A record has all its fields. */
  predicate Complete(p: GlobalPreferences) {
    p.flags.Keys == (set t | t in FLAGS) && p.limits.Keys == (set t | t in LIMITS)
  }

  // ----- what is written -----

  function FlagText(flag: bool): string {
    IntText(if flag then 1 else 0)
  }

  function Leaf(tag: string, content: string): Node {
    Node(tag, content, [], false)
  }

  function WrittenHour(prefs: GlobalPreferences, mask: Mask, tag: string): Option<string> {
    if tag == START && mask.cpuTimes then Some(DecimalText(prefs.cpuTimes.start))
    else if tag == END && mask.cpuTimes then Some(DecimalText(prefs.cpuTimes.end))
    else if tag == NET_START && mask.netTimes then Some(DecimalText(prefs.netTimes.start))
    else if tag == NET_END && mask.netTimes then Some(DecimalText(prefs.netTimes.end))
    else None
  }

  /** The content written under a tag, if there is one. */
  function Written(prefs: GlobalPreferences, mask: Mask, tag: string): Option<string>
    requires Complete(prefs)
  {
    if tag in FLAGS then
      if tag in mask.flags then Some(FlagText(prefs.flags[tag])) else None
    else if tag in LIMITS then
      if tag in mask.limits then Some(DecimalText(prefs.limits[tag]))
      else if tag in DEFAULTS then Some(DecimalText(DEFAULTS[tag]))
      else None
    else if tag == PERIOD then
      if mask.periodDays then Some(IntText(prefs.periodDays)) else None
    else
      WrittenHour(prefs, mask, tag)
  }

  function Leaves(prefs: GlobalPreferences, mask: Mask, tags: seq<string>): seq<Node>
    requires Complete(prefs)
  {
    if tags == [] then []
    else
      var last := tags[|tags| - 1];
      Leaves(prefs, mask, tags[..|tags| - 1])
      + (match Written(prefs, mask, last) case Some(text) => [Leaf(last, text)] case None => [])
  }

  function SpanLeaves(times: map<Day, TimeSpan>, day: Day, start: string, end: string): seq<Node> {
    if day in times then [Leaf(start, DecimalText(times[day].start)), Leaf(end, DecimalText(times[day].end))] else []
  }

  function DayNode(prefs: GlobalPreferences, day: Day): Node {
    NewNode(DAY_PREFS).(children := [Leaf(DAY_OF_WEEK, IntText(day))]
                                  + SpanLeaves(prefs.dailyCpuTimes, day, START, END)
                                  + SpanLeaves(prefs.dailyNetTimes, day, NET_START, NET_END))
  }

  /** The days that get a node: those of either map whose mask is set. */
  function Days(prefs: GlobalPreferences, mask: Mask): set<Day> {
    (if mask.dailyCpuTimes then prefs.dailyCpuTimes.Keys else {})
    + (if mask.dailyNetTimes then prefs.dailyNetTimes.Keys else {})
  }

  function DayNodes(prefs: GlobalPreferences, days: set<Day>, from: nat): seq<Node>
    requires from <= 8
    decreases 8 - from
  {
    if from == 8 then []
    else (if from in days then [DayNode(prefs, from)] else []) + DayNodes(prefs, days, from + 1)
  }

  function WrittenNode(prefs: GlobalPreferences, mask: Mask): Node
    requires Complete(prefs)
  {
    Node("global_preferences", "", Leaves(prefs, mask, TAGS) + DayNodes(prefs, Days(prefs, mask), 0), true)
  }

  // ----- the writer -----

  predicate Distinct(tags: seq<string>) {
    forall i, j :: 0 <= i < j < |tags| ==> tags[i] != tags[j]
  }

  const OTHERS: seq<string> := [PERIOD, START, END, NET_START, NET_END, DAY_PREFS]

  lemma FlagsAreDistinct()
    ensures Distinct(FLAGS) && |FLAGS| == 7
  {
  }

  lemma FirstLimitsAreDistinct()
    ensures forall i, j :: 0 <= i < j < 10 ==> LIMITS[i] != LIMITS[j]
  {
  }

  lemma LastLimitsAreDistinct()
    ensures |LIMITS| == 17 && forall i, j :: 0 <= i < j && 10 <= j < 17 ==> LIMITS[i] != LIMITS[j]
  {
  }

  lemma LimitsAreDistinct()
    ensures Distinct(LIMITS) && |LIMITS| == 17
  {
    FirstLimitsAreDistinct();
    LastLimitsAreDistinct();
    hide LIMITS;
  }

  lemma OthersAreDistinct()
    ensures Distinct(OTHERS) && |OTHERS| == 6
  {
  }

  predicate Disjoint(a: seq<string>, b: seq<string>) {
    forall i, j :: 0 <= i < |a| && 0 <= j < |b| ==> a[i] != b[j]
  }

  lemma FlagsAreNoLimits()
    ensures Disjoint(FLAGS, LIMITS)
  {
  }

  lemma FlagsAreNoOthers()
    ensures Disjoint(FLAGS, OTHERS)
  {
  }

  lemma LimitsAreNoOthers()
    ensures Disjoint(LIMITS, OTHERS)
  {
  }

  lemma DistinctConcat(a: seq<string>, b: seq<string>)
    requires Distinct(a) && Distinct(b) && Disjoint(a, b)
    ensures Distinct(a + b)
  {
    forall i, j | 0 <= i < j < |a + b| ensures (a + b)[i] != (a + b)[j] {
      if i < |a| && j >= |a| {
        assert a[i] != b[j - |a|];
      } else if i >= |a| {
        assert b[i - |a|] != b[j - |a|];
      }
    }
  }

  lemma TagsAreDistinct()
    ensures TAGS + [DAY_PREFS] == FLAGS + LIMITS + OTHERS && |TAGS| == 29 && |FLAGS| == 7 && |LIMITS| == 17
    ensures Distinct(FLAGS + LIMITS + OTHERS)
  {
    FlagsAreDistinct();
    LimitsAreDistinct();
    OthersAreDistinct();
    FlagsAreNoLimits();
    FlagsAreNoOthers();
    LimitsAreNoOthers();
    assert [PERIOD, START, END, NET_START, NET_END] + [DAY_PREFS] == OTHERS;
    hide FLAGS, LIMITS, OTHERS, PERIOD, START, END, NET_START, NET_END, DAY_PREFS;
    DistinctConcat(FLAGS, LIMITS);
    DistinctConcat(FLAGS + LIMITS, OTHERS);
    assert TAGS + [DAY_PREFS] == FLAGS + LIMITS + OTHERS;
  }

  // ----- the writer -----

  lemma {:induction false} LeafTags(prefs: GlobalPreferences, mask: Mask, tags: seq<string>)
    requires Complete(prefs)
    ensures forall c <- Leaves(prefs, mask, tags) :: c.tag in tags
  {
    hide Complete, Written;
    if tags != [] {
      LeafTags(prefs, mask, tags[..|tags| - 1]);
    }
  }

  /** Content under a new tag is one more child. */
  lemma SetNew(n: Node, tag: string, content: string)
    requires forall c <- n.children :: c.tag != tag
    ensures Set(n, tag, content) == n.(children := n.children + [Leaf(tag, content)])
  {
    assert FindChild(n.children, tag) == |n.children|;
  }

  lemma WriteOne(n: Node, prefs: GlobalPreferences, mask: Mask, tags: seq<string>, k: nat)
    requires Complete(prefs) && Distinct(tags) && k < |tags| && n.children == Leaves(prefs, mask, tags[..k])
    ensures match Written(prefs, mask, tags[k])
            case Some(text) => Set(n, tags[k], text) == n.(children := Leaves(prefs, mask, tags[..k + 1]))
            case None => n.children == Leaves(prefs, mask, tags[..k + 1])
  {
    hide Complete, Written, Set, Leaf;
    assert tags[..k + 1][..k] == tags[..k];
    LeafTags(prefs, mask, tags[..k]);
    match Written(prefs, mask, tags[k])
    case Some(text) => SetNew(n, tags[k], text);
    case None =>
  }

  lemma WrittenFlag(prefs: GlobalPreferences, mask: Mask, i: nat)
    requires Complete(prefs) && i < |FLAGS|
    ensures i < |TAGS| && TAGS[i] == FLAGS[i] && FLAGS[i] in prefs.flags
    ensures Written(prefs, mask, FLAGS[i])
         == if FLAGS[i] in mask.flags then Some(FlagText(prefs.flags[FLAGS[i]])) else None
  {
    hide FLAGS, LIMITS, FlagText;
    assert FLAGS[i] in FLAGS;
  }

  lemma WrittenLimit(prefs: GlobalPreferences, mask: Mask, i: nat)
    requires Complete(prefs) && i < |LIMITS|
    ensures |FLAGS| + i < |TAGS| && TAGS[|FLAGS| + i] == LIMITS[i] && LIMITS[i] in prefs.limits
    ensures Written(prefs, mask, LIMITS[i])
         == if LIMITS[i] in mask.limits then Some(DecimalText(prefs.limits[LIMITS[i]]))
            else if LIMITS[i] in DEFAULTS then Some(DecimalText(DEFAULTS[LIMITS[i]]))
            else None
  {
    FlagsAreNoLimits();
    hide FLAGS, LIMITS, DEFAULTS, DecimalText, PERIOD, START, END, NET_START, NET_END;
    assert LIMITS[i] in LIMITS;
  }

  lemma WrittenOthers(prefs: GlobalPreferences, mask: Mask)
    requires Complete(prefs)
    ensures Written(prefs, mask, PERIOD) == if mask.periodDays then Some(IntText(prefs.periodDays)) else None
    ensures Written(prefs, mask, START) == if mask.cpuTimes then Some(DecimalText(prefs.cpuTimes.start)) else None
    ensures Written(prefs, mask, END) == if mask.cpuTimes then Some(DecimalText(prefs.cpuTimes.end)) else None
    ensures Written(prefs, mask, NET_START) == if mask.netTimes then Some(DecimalText(prefs.netTimes.start)) else None
    ensures Written(prefs, mask, NET_END) == if mask.netTimes then Some(DecimalText(prefs.netTimes.end)) else None
  {
    FlagsAreNoOthers();
    LimitsAreNoOthers();
    OthersAreDistinct();
    hide FLAGS, LIMITS, DEFAULTS, DecimalText, IntText;
    assert forall i :: 0 <= i < 6 ==> OTHERS[i] !in FLAGS && OTHERS[i] !in LIMITS;
    assert OTHERS[0] == PERIOD && OTHERS[1] == START && OTHERS[2] == END && OTHERS[3] == NET_START
        && OTHERS[4] == NET_END;
  }

  lemma TagsOfOthers()
    ensures |TAGS| == 29
    ensures TAGS[24] == PERIOD && TAGS[25] == START && TAGS[26] == END && TAGS[27] == NET_START && TAGS[28] == NET_END
  {
    TagsAreDistinct();
    hide FLAGS, LIMITS, PERIOD, START, END, NET_START, NET_END;
  }

  method WritePreferences(prefs: GlobalPreferences, mask: Mask) returns (node: Node)
    requires Complete(prefs)
    ensures node == WrittenNode(prefs, mask)
  {
    node := NewNode("global_preferences").(resetIndentation := true);
    node := WriteScalars(node, prefs, mask);
    var days: set<Day> := {};
    if mask.dailyCpuTimes {
      days := days + prefs.dailyCpuTimes.Keys;
    }
    if mask.dailyNetTimes {
      days := days + prefs.dailyNetTimes.Keys;
    }
    assert days == Days(prefs, mask);
    node := WriteDays(node, prefs, days);
  }

  /** The days of a `std::set`, in ascending order. */
  method WriteDays(n: Node, prefs: GlobalPreferences, days: set<Day>) returns (node: Node)
    ensures node == n.(children := n.children + DayNodes(prefs, days, 0))
  {
    hide DayNode;
    node := n;
    for day := 0 to 8
      invariant node == n.(children := node.children)
      invariant node.children + DayNodes(prefs, days, day) == n.children + DayNodes(prefs, days, 0)
    {
      if day in days {
        var dayNode := WriteDay(prefs, day);
        assert node.children + DayNodes(prefs, days, day) == node.children + [dayNode] + DayNodes(prefs, days, day + 1);
        node := node.(children := node.children + [dayNode]);
      } else {
        assert DayNodes(prefs, days, day) == DayNodes(prefs, days, day + 1);
      }
    }
  }

  method WriteScalars(empty: Node, prefs: GlobalPreferences, mask: Mask) returns (node: Node)
    requires Complete(prefs) && empty.children == []
    ensures node == empty.(children := Leaves(prefs, mask, TAGS))
  {
    hide Complete, Written, FlagText, DecimalText, IntText, Set;
    node := empty;
    TagsAreDistinct();
    DistinctPrefix(FLAGS + LIMITS + OTHERS, TAGS);
    hide FLAGS, LIMITS, DEFAULTS;
    for i := 0 to |FLAGS|
      invariant node == empty.(children := Leaves(prefs, mask, TAGS[..i]))
    {
      WriteOne(node, prefs, mask, TAGS, i);
      WrittenFlag(prefs, mask, i);
      if FLAGS[i] in mask.flags {
        node := Set(node, FLAGS[i], FlagText(prefs.flags[FLAGS[i]]));
      }
    }
    for i := 0 to |LIMITS|
      invariant node == empty.(children := Leaves(prefs, mask, TAGS[..|FLAGS| + i]))
    {
      WriteOne(node, prefs, mask, TAGS, |FLAGS| + i);
      WrittenLimit(prefs, mask, i);
      if LIMITS[i] in DEFAULTS {
        var value := if LIMITS[i] in mask.limits then prefs.limits[LIMITS[i]] else DEFAULTS[LIMITS[i]];
        node := Set(node, LIMITS[i], DecimalText(value));
      } else if LIMITS[i] in mask.limits {
        node := Set(node, LIMITS[i], DecimalText(prefs.limits[LIMITS[i]]));
      }
    }
    node := WriteOthers(node, prefs, mask);
    assert TAGS[..29] == TAGS;
  }

  method WriteOthers(n: Node, prefs: GlobalPreferences, mask: Mask) returns (node: Node)
    requires Complete(prefs) && |TAGS| == 29 && Distinct(TAGS) && n.children == Leaves(prefs, mask, TAGS[..24])
    ensures node == n.(children := Leaves(prefs, mask, TAGS[..29]))
  {
    hide *;
    WrittenOthers(prefs, mask);
    TagsOfOthers();
    node := n;
    WriteOne(node, prefs, mask, TAGS, 24);
    if mask.periodDays {
      node := Set(node, PERIOD, IntText(prefs.periodDays));
    }
    node := WriteTimes(node, prefs, mask, 25, mask.cpuTimes, prefs.cpuTimes);
    node := WriteTimes(node, prefs, mask, 27, mask.netTimes, prefs.netTimes);
  }

  /** The two hours of a general time span, or nothing. */
  method WriteTimes(n: Node, prefs: GlobalPreferences, mask: Mask, k: nat, wanted: bool, times: TimeSpan)
      returns (node: Node)
    requires Complete(prefs) && k + 1 < |TAGS| && Distinct(TAGS) && n.children == Leaves(prefs, mask, TAGS[..k])
    requires Written(prefs, mask, TAGS[k]) == if wanted then Some(DecimalText(times.start)) else None
    requires Written(prefs, mask, TAGS[k + 1]) == if wanted then Some(DecimalText(times.end)) else None
    ensures node == n.(children := Leaves(prefs, mask, TAGS[..k + 2]))
  {
    hide *;
    node := n;
    WriteOne(node, prefs, mask, TAGS, k);
    if wanted {
      node := Set(node, TAGS[k], DecimalText(times.start));
      WriteOne(node, prefs, mask, TAGS, k + 1);
      node := Set(node, TAGS[k + 1], DecimalText(times.end));
    } else {
      WriteOne(node, prefs, mask, TAGS, k + 1);
    }
  }

  method WriteDay(prefs: GlobalPreferences, day: Day) returns (node: Node)
    ensures node == DayNode(prefs, day)
  {
    hide IntText, DecimalText;
    node := NewNode(DAY_PREFS);
    SetNew(node, DAY_OF_WEEK, IntText(day));
    node := Set(node, DAY_OF_WEEK, IntText(day));
    if day in prefs.dailyCpuTimes {
      node := WriteSpan(node, prefs.dailyCpuTimes, day, START, END);
    }
    if day in prefs.dailyNetTimes {
      node := WriteSpan(node, prefs.dailyNetTimes, day, NET_START, NET_END);
    }
    assert node.children == DayNode(prefs, day).children;
  }

  method WriteSpan(n: Node, times: map<Day, TimeSpan>, day: Day, start: string, end: string) returns (node: Node)
    requires day in times && start != end && forall c <- n.children :: c.tag != start && c.tag != end
    ensures node == n.(children := n.children + SpanLeaves(times, day, start, end))
  {
    hide DecimalText, Set;
    node := n;
    SetNew(node, start, DecimalText(times[day].start));
    node := Set(node, start, DecimalText(times[day].start));
    SetNew(node, end, DecimalText(times[day].end));
    node := Set(node, end, DecimalText(times[day].end));
  }

  lemma DistinctPrefix(tags: seq<string>, prefix: seq<string>)
    requires Distinct(tags) && prefix <= tags
    ensures Distinct(prefix)
  {
  }
}
