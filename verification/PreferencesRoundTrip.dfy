/**
  Writing preferences under a mask and parsing what was written.
*/
module PreferencesRoundTrip {
  import opened Wrappers
  import opened Xml
  import opened Numbers
  import opened Preferences
  import opened PreferencesReader

  /** The times of the days that were written, under those the record already had. */
  function Times(times: map<Day, TimeSpan>, days: set<Day>, dest: map<Day, TimeSpan>): map<Day, TimeSpan> {
    map d | d in times.Keys * days + dest.Keys :: if d in dest then dest[d] else times[d]
  }

  /**
    What is left of the preferences: the masked fields, the defaults of the limits that are always
    written, false for the other flags, and what the reader had before for everything else.
  */
  function Expected(prefs: GlobalPreferences, mask: Mask, dest: GlobalPreferences): GlobalPreferences
    requires Complete(prefs) && Complete(dest)
  {
    GlobalPreferences(
      map t | t in prefs.flags :: t in mask.flags && prefs.flags[t],
      map t | t in prefs.limits ::
        if t in mask.limits then prefs.limits[t] else if t in DEFAULTS then DEFAULTS[t] else dest.limits[t],
      if mask.periodDays then prefs.periodDays else dest.periodDays,
      if mask.cpuTimes then prefs.cpuTimes else dest.cpuTimes,
      if mask.netTimes then prefs.netTimes else dest.netTimes,
      Times(prefs.dailyCpuTimes, Days(prefs, mask), dest.dailyCpuTimes),
      Times(prefs.dailyNetTimes, Days(prefs, mask), dest.dailyNetTimes))
  }

  // ----- contents by tag -----

  lemma {:induction false} FindInConcat(a: seq<Node>, b: seq<Node>, tag: string)
    ensures FindChild(a + b, tag) == if FindChild(a, tag) < |a| then FindChild(a, tag) else |a| + FindChild(b, tag)
  {
    if a == [] {
      assert a + b == b;
    } else if a[0].tag != tag {
      assert (a + b)[1..] == a[1..] + b;
      FindInConcat(a[1..], b, tag);
    }
  }

  lemma ContentInConcat(a: seq<Node>, b: seq<Node>, tag: string)
    ensures Content(a + b, tag) == match Content(a, tag) case Some(text) => Some(text) case None => Content(b, tag)
  {
    FindInConcat(a, b, tag);
  }

  lemma ContentOfOne(n: Node, tag: string)
    ensures Content([n], tag) == if n.tag == tag then Some(n.content) else None
  {
    assert [n][1..] == [];
  }

  lemma {:induction false} ContentWritten(prefs: GlobalPreferences, mask: Mask, tags: seq<string>, tag: string)
    requires Complete(prefs) && Distinct(tags)
    ensures Content(Leaves(prefs, mask, tags), tag) == if tag in tags then Written(prefs, mask, tag) else None
  {
    hide Complete, Written;
    if tags != [] {
      var front, last := tags[..|tags| - 1], tags[|tags| - 1];
      assert tags == front + [last] && last !in front;
      ContentWritten(prefs, mask, front, tag);
      match Written(prefs, mask, last) {
        case Some(text) => ContentInConcat(Leaves(prefs, mask, front), [Leaf(last, text)], tag);
        case None => assert Leaves(prefs, mask, tags) == Leaves(prefs, mask, front);
      }
    }
  }

  lemma {:induction false} DayTags(prefs: GlobalPreferences, days: set<Day>, from: nat)
    requires from <= 8
    ensures forall c <- DayNodes(prefs, days, from) :: c.tag == DAY_PREFS
    decreases 8 - from
  {
    if from < 8 {
      DayTags(prefs, days, from + 1);
    }
  }

  /** Each scalar tag is found with exactly the content that was written for it. */
  lemma ContentOfTag(prefs: GlobalPreferences, mask: Mask, tag: string)
    requires Complete(prefs) && tag in TAGS
    ensures Content(WrittenNode(prefs, mask).children, tag) == Written(prefs, mask, tag)
  {
    hide Complete, Written, FLAGS, LIMITS;
    TagsAreDistinct();
    DistinctPrefix(FLAGS + LIMITS + OTHERS, TAGS);
    var days := DayNodes(prefs, Days(prefs, mask), 0);
    DayTags(prefs, Days(prefs, mask), 0);
    assert tag != DAY_PREFS by {
      var i :| 0 <= i < |TAGS| && TAGS[i] == tag;
      assert (TAGS + [DAY_PREFS])[i] == tag && (TAGS + [DAY_PREFS])[29] == DAY_PREFS;
    }
    assert Content(days, tag) == None;
    ContentWritten(prefs, mask, TAGS, tag);
    ContentInConcat(Leaves(prefs, mask, TAGS), days, tag);
  }

  // ----- scalar fields -----

  lemma FlagBack(prefs: GlobalPreferences, mask: Mask, tag: string)
    requires Complete(prefs) && tag in FLAGS
    ensures FlagAt(WrittenNode(prefs, mask).children, tag) == (tag in mask.flags && prefs.flags[tag])
  {
    hide FLAGS, LIMITS, WrittenNode;
    assert tag in TAGS;
    ContentOfTag(prefs, mask, tag);
    FlagTexts();
  }

  lemma FlagTexts()
    ensures FlagText(false) == "0" && FlagText(true) != "0"
  {
    assert Digits(0) == [Digit(0)] && Digits(1) == [Digit(1)];
    assert FlagText(false) == [Digit(0)] == "0";
    assert FlagText(true)[0] == Digit(1) == '1';
  }

  lemma LimitBack(prefs: GlobalPreferences, mask: Mask, tag: string, dest: int)
    requires Complete(prefs) && tag in LIMITS
    ensures DecimalAt(WrittenNode(prefs, mask).children, tag, dest)
         == Some(if tag in mask.limits then prefs.limits[tag] else if tag in DEFAULTS then DEFAULTS[tag] else dest)
  {
    var i :| 0 <= i < |LIMITS| && LIMITS[i] == tag;
    WrittenLimit(prefs, mask, i);
    hide FLAGS, LIMITS, DEFAULTS, WrittenNode, Written;
    ContentOfTag(prefs, mask, tag);
    if tag in mask.limits {
      DecimalRoundTrip(prefs.limits[tag]);
    } else if tag in DEFAULTS {
      DecimalRoundTrip(DEFAULTS[tag]);
    }
  }

  lemma DecimalBack(prefs: GlobalPreferences, mask: Mask, tag: string, wanted: bool, value: int, dest: int)
    requires Complete(prefs) && tag in TAGS
    requires Written(prefs, mask, tag) == if wanted then Some(DecimalText(value)) else None
    ensures DecimalAt(WrittenNode(prefs, mask).children, tag, dest) == Some(if wanted then value else dest)
  {
    hide WrittenNode, Written, Complete, DecimalText, ParseDecimal, TAGS;
    ContentOfTag(prefs, mask, tag);
    DecimalRoundTrip(value);
  }

  lemma PeriodBack(prefs: GlobalPreferences, mask: Mask, dest: Int32)
    requires Complete(prefs)
    ensures IntAt(WrittenNode(prefs, mask).children, PERIOD, dest)
         == Some(if mask.periodDays then prefs.periodDays else dest)
  {
    hide WrittenNode, Written, Complete, IntText, ParseInt, TAGS, PERIOD;
    WrittenOthers(prefs, mask);
    TagsOfOthers();
    ContentOfTag(prefs, mask, PERIOD);
    IntRoundTrip(prefs.periodDays);
  }

  lemma TimesBack(prefs: GlobalPreferences, mask: Mask, cpu: TimeSpan, net: TimeSpan)
    requires Complete(prefs)
    ensures var children := WrittenNode(prefs, mask).children;
            && SpanAt(children, START, END, cpu) == Some(if mask.cpuTimes then prefs.cpuTimes else cpu)
            && SpanAt(children, NET_START, NET_END, net) == Some(if mask.netTimes then prefs.netTimes else net)
  {
    hide WrittenNode, Written, Complete, DecimalText, DecimalAt, TAGS, START, END, NET_START, NET_END;
    WrittenOthers(prefs, mask);
    TagsOfOthers();
    DecimalBack(prefs, mask, START, mask.cpuTimes, prefs.cpuTimes.start, cpu.start);
    DecimalBack(prefs, mask, END, mask.cpuTimes, prefs.cpuTimes.end, cpu.end);
    DecimalBack(prefs, mask, NET_START, mask.netTimes, prefs.netTimes.start, net.start);
    DecimalBack(prefs, mask, NET_END, mask.netTimes, prefs.netTimes.end, net.end);
  }

  lemma FlagsBack(prefs: GlobalPreferences, mask: Mask, dest: GlobalPreferences)
    requires Complete(prefs) && Complete(dest)
    ensures FlagsOf(WrittenNode(prefs, mask).children, dest.flags) == Expected(prefs, mask, dest).flags
  {
    hide FLAGS, LIMITS, DEFAULTS, WrittenNode, FlagAt;
    forall t | t in FLAGS ensures FlagAt(WrittenNode(prefs, mask).children, t) == (t in mask.flags && prefs.flags[t]) {
      FlagBack(prefs, mask, t);
    }
  }

  lemma LimitsBack(prefs: GlobalPreferences, mask: Mask, dest: GlobalPreferences)
    requires Complete(prefs) && Complete(dest)
    ensures var children := WrittenNode(prefs, mask).children;
            LimitsReadable(children) && LimitsOf(children, dest.limits) == Expected(prefs, mask, dest).limits
  {
    hide FLAGS, LIMITS, DEFAULTS, WrittenNode, DecimalAt;
    forall t, d | t in LIMITS
      ensures DecimalAt(WrittenNode(prefs, mask).children, t, d)
           == Some(if t in mask.limits then prefs.limits[t] else if t in DEFAULTS then DEFAULTS[t] else d)
    {
      LimitBack(prefs, mask, t, d);
    }
  }

  lemma ScalarsBack(prefs: GlobalPreferences, mask: Mask, dest: GlobalPreferences)
    requires Complete(prefs) && Complete(dest)
    ensures Scalars(WrittenNode(prefs, mask).children, dest)
         == Some(Expected(prefs, mask, dest).(dailyCpuTimes := dest.dailyCpuTimes, dailyNetTimes := dest.dailyNetTimes))
  {
    hide FLAGS, LIMITS, DEFAULTS, WrittenNode, FlagsOf, LimitsOf, LimitsReadable, IntAt, SpanAt, Complete;
    FlagsBack(prefs, mask, dest);
    LimitsBack(prefs, mask, dest);
    PeriodBack(prefs, mask, dest.periodDays);
    TimesBack(prefs, mask, dest.cpuTimes, dest.netTimes);
  }

  // ----- days -----

  lemma SpanLeavesContent(times: map<Day, TimeSpan>, day: Day, start: string, end: string, tag: string)
    requires start != end
    ensures Content(SpanLeaves(times, day, start, end), tag)
         == if day in times && tag == start then Some(DecimalText(times[day].start))
            else if day in times && tag == end then Some(DecimalText(times[day].end))
            else None
  {
    hide DecimalText;
    var leaves := SpanLeaves(times, day, start, end);
    if day in times {
      ContentInConcat([leaves[0]], [leaves[1]], tag);
      ContentOfOne(leaves[0], tag);
      ContentOfOne(leaves[1], tag);
      assert leaves == [leaves[0]] + [leaves[1]];
    }
  }

  lemma DayContent(prefs: GlobalPreferences, day: Day, tag: string)
    ensures Content(DayNode(prefs, day).children, tag)
         == if tag == DAY_OF_WEEK then Some(IntText(day))
            else match Content(SpanLeaves(prefs.dailyCpuTimes, day, START, END), tag)
                 case Some(text) => Some(text)
                 case None => Content(SpanLeaves(prefs.dailyNetTimes, day, NET_START, NET_END), tag)
  {
    hide DecimalText, IntText, SpanLeaves;
    var first := [Leaf(DAY_OF_WEEK, IntText(day))];
    var cpu := SpanLeaves(prefs.dailyCpuTimes, day, START, END);
    var net := SpanLeaves(prefs.dailyNetTimes, day, NET_START, NET_END);
    ContentInConcat(first + cpu, net, tag);
    ContentInConcat(first, cpu, tag);
  }

  lemma SpanBack(prefs: GlobalPreferences, day: Day, start: string, end: string, daily: map<Day, TimeSpan>,
                 times: map<Day, TimeSpan>)
    requires HourText(prefs, day, start) == if day in daily then Some(DecimalText(daily[day].start)) else None
    requires HourText(prefs, day, end) == if day in daily then Some(DecimalText(daily[day].end)) else None
    requires start != DAY_OF_WEEK && end != DAY_OF_WEEK
    ensures WithSpan(DayNode(prefs, day).children, Some(day), start, end, times)
         == Some(if day in daily then Emplaced(times, day, daily[day]) else times)
  {
    hide DecimalText, ParseDecimal, DayNode, Emplaced, SpanLeaves, Content, HourText, DAY_OF_WEEK;
    HourOf(prefs, day, start);
    HourOf(prefs, day, end);
    if day in daily {
      DecimalRoundTrip(daily[day].start);
      DecimalRoundTrip(daily[day].end);
    }
  }

  /** The times of the day whose hours have this tag, and which of the two hours it is. */
  function HourText(prefs: GlobalPreferences, day: Day, tag: string): Option<string> {
    if tag == START && day in prefs.dailyCpuTimes then Some(DecimalText(prefs.dailyCpuTimes[day].start))
    else if tag == END && day in prefs.dailyCpuTimes then Some(DecimalText(prefs.dailyCpuTimes[day].end))
    else if tag == NET_START && day in prefs.dailyNetTimes then Some(DecimalText(prefs.dailyNetTimes[day].start))
    else if tag == NET_END && day in prefs.dailyNetTimes then Some(DecimalText(prefs.dailyNetTimes[day].end))
    else None
  }

  lemma HourOf(prefs: GlobalPreferences, day: Day, tag: string)
    requires tag != DAY_OF_WEEK
    ensures Content(DayNode(prefs, day).children, tag) == HourText(prefs, day, tag)
  {
    OthersAreDistinct();
    assert OTHERS[1] == START && OTHERS[2] == END && OTHERS[3] == NET_START && OTHERS[4] == NET_END;
    hide DecimalText, IntText, SpanLeaves, DayNode, Content, START, END, NET_START, NET_END;
    DayContent(prefs, day, tag);
    SpanLeavesContent(prefs.dailyCpuTimes, day, START, END, tag);
    SpanLeavesContent(prefs.dailyNetTimes, day, NET_START, NET_END, tag);
  }

  lemma HoursAreNoDays()
    ensures DAY_OF_WEEK !in {START, END, NET_START, NET_END} && |{START, END, NET_START, NET_END}| == 4
  {
    OthersAreDistinct();
    assert OTHERS[1] == START && OTHERS[2] == END && OTHERS[3] == NET_START && OTHERS[4] == NET_END;
  }

  lemma DayBack(prefs: GlobalPreferences, day: Day, p: GlobalPreferences)
    ensures WithDay(DayNode(prefs, day).children, p)
         == var cpu, net := prefs.dailyCpuTimes, prefs.dailyNetTimes;
            Some(p.(dailyCpuTimes := if day in cpu then Emplaced(p.dailyCpuTimes, day, cpu[day]) else p.dailyCpuTimes,
                    dailyNetTimes := if day in net then Emplaced(p.dailyNetTimes, day, net[day]) else p.dailyNetTimes))
  {
    hide DecimalText, IntText, DayNode, SpanLeaves, WithSpan, Content, Emplaced;
    HoursAreNoDays();
    DayContent(prefs, day, DAY_OF_WEEK);
    IntRoundTrip(day);
    SpanBack(prefs, day, START, END, prefs.dailyCpuTimes, p.dailyCpuTimes);
    SpanBack(prefs, day, NET_START, NET_END, prefs.dailyNetTimes, p.dailyNetTimes);
  }

  /** The days from `from` on that are written. */
  function Left(days: set<Day>, from: int): set<Day> {
    set d | d in days && from <= d
  }

  lemma TimesStep(times: map<Day, TimeSpan>, days: set<Day>, from: Day, dest: map<Day, TimeSpan>)
    ensures Times(times, Left(days, from), dest)
         == Times(times, Left(days, from + 1),
                  if from in days && from in times then Emplaced(dest, from, times[from]) else dest)
  {
  }

  lemma {:induction false} DaysBack(prefs: GlobalPreferences, days: set<Day>, from: nat, p: GlobalPreferences)
    requires from <= 8
    ensures WithDays(DayNodes(prefs, days, from), p)
         == Some(p.(dailyCpuTimes := Times(prefs.dailyCpuTimes, Left(days, from), p.dailyCpuTimes),
                    dailyNetTimes := Times(prefs.dailyNetTimes, Left(days, from), p.dailyNetTimes)))
    decreases 8 - from
  {
    hide DayNode, WithDay, Emplaced;
    if from == 8 {
      assert Left(days, 8) == {};
      assert Times(prefs.dailyCpuTimes, {}, p.dailyCpuTimes) == p.dailyCpuTimes;
      assert Times(prefs.dailyNetTimes, {}, p.dailyNetTimes) == p.dailyNetTimes;
    } else {
      TimesStep(prefs.dailyCpuTimes, days, from, p.dailyCpuTimes);
      TimesStep(prefs.dailyNetTimes, days, from, p.dailyNetTimes);
      NodesFrom(prefs, days, from);
      hide Times, Left, DayNodes, WithDays;
      var rest := DayNodes(prefs, days, from + 1);
      if from in days {
        DayBack(prefs, from, p);
        var p' := WithDay(DayNode(prefs, from).children, p).value;
        DaysBack(prefs, days, from + 1, p');
        FirstDay(prefs, from, rest, p);
      } else {
        DaysBack(prefs, days, from + 1, p);
      }
    }
  }

  lemma NodesFrom(prefs: GlobalPreferences, days: set<Day>, from: nat)
    requires from < 8
    ensures DayNodes(prefs, days, from)
         == if from in days then [DayNode(prefs, from)] + DayNodes(prefs, days, from + 1)
            else DayNodes(prefs, days, from + 1)
  {
  }

  lemma FirstDay(prefs: GlobalPreferences, day: Day, rest: seq<Node>, p: GlobalPreferences)
    ensures WithDays([DayNode(prefs, day)] + rest, p)
         == match WithDay(DayNode(prefs, day).children, p)
            case None => None
            case Some(p') => WithDays(rest, p')
  {
    hide WithDay;
    assert ([DayNode(prefs, day)] + rest)[1..] == rest;
  }

  lemma {:induction false} LeavesHaveNoDays(leaves: seq<Node>, rest: seq<Node>, p: GlobalPreferences)
    requires forall c <- leaves :: c.tag != DAY_PREFS
    ensures WithDays(leaves + rest, p) == WithDays(rest, p)
  {
    hide WithDay;
    if leaves == [] {
      assert leaves + rest == rest;
    } else {
      assert (leaves + rest)[1..] == leaves[1..] + rest;
      LeavesHaveNoDays(leaves[1..], rest, p);
    }
  }

  lemma ScalarsAreNoDays(prefs: GlobalPreferences, mask: Mask)
    requires Complete(prefs)
    ensures forall c <- Leaves(prefs, mask, TAGS) :: c.tag != DAY_PREFS
  {
    hide Complete, Leaves, FLAGS, LIMITS, OTHERS, DAY_PREFS;
    TagsAreDistinct();
    LeafTags(prefs, mask, TAGS);
    forall t | t in TAGS ensures t != DAY_PREFS {
      var i :| 0 <= i < |TAGS| && TAGS[i] == t;
      assert (TAGS + [DAY_PREFS])[i] == t && (TAGS + [DAY_PREFS])[29] == DAY_PREFS;
    }
  }

  // ----- the round trip -----

  /** For all preferences, every mask and whatever the reader had before. */
  lemma RoundTrip(prefs: GlobalPreferences, mask: Mask, dest: GlobalPreferences)
    requires Complete(prefs) && Complete(dest)
    ensures Parsed(WrittenNode(prefs, mask).children, dest) == Some(Expected(prefs, mask, dest))
  {
    hide Scalars, WithDays, DayNodes, Leaves, FLAGS, LIMITS, TAGS, DEFAULTS;
    ScalarsBack(prefs, mask, dest);
    ScalarsAreNoDays(prefs, mask);
    var days := Days(prefs, mask);
    var p := Expected(prefs, mask, dest).(dailyCpuTimes := dest.dailyCpuTimes, dailyNetTimes := dest.dailyNetTimes);
    LeavesHaveNoDays(Leaves(prefs, mask, TAGS), DayNodes(prefs, days, 0), p);
    DaysBack(prefs, days, 0, p);
    assert Left(days, 0) == days;
  }
}
