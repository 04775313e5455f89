/**
  What the writer of preferences puts into the request, by the tags and texts as they are sent.
*/
module PreferencesText {
  import opened Wrappers
  import opened Xml
  import opened Numbers
  import opened Preferences
  import opened PreferencesReader
  import opened PreferencesRoundTrip

  lemma HourTags()
    ensures PERIOD == "daily_xfer_period_days" && START == "start_hour" && END == "end_hour"
    ensures NET_START == "net_start_hour" && NET_END == "net_end_hour"
    ensures DAY_PREFS == "day_prefs" && DAY_OF_WEEK == "day_of_week"
    ensures TAGS == FLAGS + LIMITS
                    + ["daily_xfer_period_days", "start_hour", "end_hour", "net_start_hour", "net_end_hour"]
  {
  }

  /** The root, the period and the hours. */
  lemma WrittenTimes(prefs: GlobalPreferences, mask: Mask)
    requires Complete(prefs)
    ensures var n := WrittenNode(prefs, mask);
            && n.tag == "global_preferences" && n.content == "" && n.resetIndentation
            && Content(n.children, "daily_xfer_period_days")
               == (if mask.periodDays then Some(IntText(prefs.periodDays)) else None)
            && Content(n.children, "start_hour")
               == (if mask.cpuTimes then Some(DecimalText(prefs.cpuTimes.start)) else None)
            && Content(n.children, "end_hour")
               == (if mask.cpuTimes then Some(DecimalText(prefs.cpuTimes.end)) else None)
            && Content(n.children, "net_start_hour")
               == (if mask.netTimes then Some(DecimalText(prefs.netTimes.start)) else None)
            && Content(n.children, "net_end_hour")
               == (if mask.netTimes then Some(DecimalText(prefs.netTimes.end)) else None)
  {
    HourTags();
    WrittenOthers(prefs, mask);
    hide Written, Content, Complete, FLAGS, LIMITS, PERIOD, START, END, NET_START, NET_END, DecimalText, IntText;
    TagsOfOthers();
    ContentOfTag(prefs, mask, PERIOD);
    ContentOfTag(prefs, mask, START);
    ContentOfTag(prefs, mask, END);
    ContentOfTag(prefs, mask, NET_START);
    ContentOfTag(prefs, mask, NET_END);
  }

  lemma FlagTags()
    ensures FLAGS == ["confirm_before_connecting", "dont_verify_images", "hangup_if_dialed", "leave_apps_in_memory",
                      "run_gpu_if_user_active", "run_if_user_active", "run_on_batteries"]
  {
  }

  /** A flag in the mask is "1" or "0", and no other is written. */
  lemma WrittenFlags(prefs: GlobalPreferences, mask: Mask, tag: string)
    requires Complete(prefs)
    requires tag in ["confirm_before_connecting", "dont_verify_images", "hangup_if_dialed", "leave_apps_in_memory",
                     "run_gpu_if_user_active", "run_if_user_active", "run_on_batteries"]
    ensures tag in prefs.flags
    ensures Content(WrittenNode(prefs, mask).children, tag)
         == if tag in mask.flags then Some(if prefs.flags[tag] then "1" else "0") else None
  {
    FlagTags();
    hide FLAGS, LIMITS, Content, WrittenNode, IntText;
    ContentOfTag(prefs, mask, tag);
    OneOrZero();
  }

  lemma OneOrZero()
    ensures IntText(1) == "1" && IntText(0) == "0"
  {
    DigitsAreDecimal(1);
    DigitsAreDecimal(0);
  }

  const ALWAYS_ZERO := {"disk_max_used_gb", "disk_min_free_gb", "suspend_cpu_usage"}

  lemma DefaultTexts(tag: string)
    ensures tag in DEFAULTS <==> tag == "disk_max_used_pct" || tag in ALWAYS_ZERO
    ensures tag in ALWAYS_ZERO ==> DecimalText(DEFAULTS[tag]) == "0.000000"
    ensures tag == "disk_max_used_pct" ==> tag !in ALWAYS_ZERO && DecimalText(DEFAULTS[tag]) == "100.000000"
  {
    OneOrZero();
    Hundred();
    NoMillionths();
    hide Digits, Padded;
    if tag == "disk_max_used_pct" {
      assert "disk_max_used_pct" !in ALWAYS_ZERO by {
        assert "disk_max_used_pct"[14] == 'p' && "disk_max_used_gb"[14] == 'g';
      }
    }
  }

  lemma Hundred()
    ensures Digits(100) == "100" && Digits(0) == "0"
  {
    DigitsAreDecimal(100);
    DigitsAreDecimal(10);
    DigitsAreDecimal(1);
    DigitsAreDecimal(0);
    hide Digits;
  }

  lemma NoMillionths()
    ensures Padded(0, 6) == "000000"
  {
    assert Padded(0, 2) == "00";
    assert Padded(0, 4) == Padded(0, 3) + "0" && Padded(0, 3) == Padded(0, 2) + "0";
    assert Padded(0, 5) == Padded(0, 4) + "0" && Padded(0, 6) == Padded(0, 5) + "0";
  }

  /** A limit in the mask is written with its value; of the others four are written with a value of their own. */
  lemma WrittenLimits(prefs: GlobalPreferences, mask: Mask, tag: string)
    requires Complete(prefs) && tag in LIMITS
    ensures tag in prefs.limits
    ensures Content(WrittenNode(prefs, mask).children, tag)
         == if tag in mask.limits then Some(DecimalText(prefs.limits[tag]))
            else if tag == "disk_max_used_pct" then Some("100.000000")
            else if tag in ALWAYS_ZERO then Some("0.000000")
            else None
  {
    var i :| 0 <= i < |LIMITS| && LIMITS[i] == tag;
    hide FLAGS, LIMITS, Content, WrittenNode, DEFAULTS, ALWAYS_ZERO, DecimalText, Written;
    WrittenLimit(prefs, mask, i);
    DefaultTexts(tag);
    ContentOfTag(prefs, mask, tag);
  }

  // ----- the order -----

  /** The tags of these children, one after the other, are some of the tags in the order of this list. */
  ghost predicate FollowOrder(children: seq<Node>, order: seq<string>) {
    forall i, j :: 0 <= i < j < |children| ==>
      exists p, q :: 0 <= p < q < |order| && order[p] == children[i].tag && order[q] == children[j].tag
  }

  lemma {:induction false} LeavesInOrder(prefs: GlobalPreferences, mask: Mask, tags: seq<string>)
    requires Complete(prefs)
    ensures FollowOrder(Leaves(prefs, mask, tags), tags)
  {
    hide Complete, Written;
    if tags != [] {
      var front, last := tags[..|tags| - 1], tags[|tags| - 1];
      LeavesInOrder(prefs, mask, front);
      LeafTags(prefs, mask, front);
      var before, all := Leaves(prefs, mask, front), Leaves(prefs, mask, tags);
      forall i, j | 0 <= i < j < |all|
        ensures exists p, q :: 0 <= p < q < |tags| && tags[p] == all[i].tag && tags[q] == all[j].tag
      {
        if j < |before| {
          var p, q :| 0 <= p < q < |front| && front[p] == before[i].tag && front[q] == before[j].tag;
          assert tags[p] == all[i].tag && tags[q] == all[j].tag;
        } else {
          assert before[i].tag in front;
          var p :| 0 <= p < |front| && front[p] == before[i].tag;
          assert tags[p] == all[i].tag && tags[|front|] == all[j].tag;
        }
      }
    }
  }

  /** The days in ascending order. */
  function Ascending(days: set<Day>, from: nat): seq<Day>
    requires from <= 8
    decreases 8 - from
  {
    if from == 8 then [] else (if from in days then [from] else []) + Ascending(days, from + 1)
  }

  lemma {:induction false} AscendingIs(days: set<Day>, from: nat)
    requires from <= 8
    ensures forall i, j :: 0 <= i < j < |Ascending(days, from)| ==> Ascending(days, from)[i] < Ascending(days, from)[j]
    ensures forall day: Day :: day in Ascending(days, from) <==> from <= day && day in days
    decreases 8 - from
  {
    if from < 8 {
      AscendingIs(days, from + 1);
      var rest := Ascending(days, from + 1);
      assert forall j :: 0 <= j < |rest| ==> rest[j] in rest;
    }
  }

  lemma {:induction false} DayNodesAre(prefs: GlobalPreferences, days: set<Day>, from: nat)
    requires from <= 8
    ensures var nodes, list := DayNodes(prefs, days, from), Ascending(days, from);
            |nodes| == |list| && forall i :: 0 <= i < |list| ==> nodes[i] == DayNode(prefs, list[i])
    decreases 8 - from
  {
    hide DayNode;
    if from < 8 {
      DayNodesAre(prefs, days, from + 1);
    }
  }

  /** First the scalar fields in the order of their tags, then the selected days from Sunday on. */
  lemma WrittenInOrder(prefs: GlobalPreferences, mask: Mask)
    requires Complete(prefs)
    ensures var days := (if mask.dailyCpuTimes then prefs.dailyCpuTimes.Keys else {})
                      + (if mask.dailyNetTimes then prefs.dailyNetTimes.Keys else {});
            var scalars, dayNodes := Leaves(prefs, mask, TAGS), DayNodes(prefs, days, 0);
            && WrittenNode(prefs, mask).children == scalars + dayNodes
            && FollowOrder(scalars, TAGS)
            && (forall i, j :: 0 <= i < j < |Ascending(days, 0)| ==> Ascending(days, 0)[i] < Ascending(days, 0)[j])
            && (forall day: Day :: day in Ascending(days, 0) <==> day in days)
            && |dayNodes| == |Ascending(days, 0)|
            && forall i :: 0 <= i < |dayNodes| ==> dayNodes[i] == DayNode(prefs, Ascending(days, 0)[i])
  {
    LeavesInOrder(prefs, mask, TAGS);
    DayNodesAre(prefs, Days(prefs, mask), 0);
    AscendingIs(Days(prefs, mask), 0);
    hide Leaves, DayNode, DayNodes, Ascending;
  }

  /** The node of a day: the day, and the hours of each map that has it. */
  lemma WrittenDay(prefs: GlobalPreferences, day: Day)
    ensures var n, cpu, net := DayNode(prefs, day), prefs.dailyCpuTimes, prefs.dailyNetTimes;
            && n.tag == "day_prefs" && n.content == "" && !n.resetIndentation
            && Content(n.children, "day_of_week") == Some(IntText(day))
            && Content(n.children, "start_hour") == (if day in cpu then Some(DecimalText(cpu[day].start)) else None)
            && Content(n.children, "end_hour") == (if day in cpu then Some(DecimalText(cpu[day].end)) else None)
            && Content(n.children, "net_start_hour") == (if day in net then Some(DecimalText(net[day].start)) else None)
            && Content(n.children, "net_end_hour") == (if day in net then Some(DecimalText(net[day].end)) else None)
  {
    HourTags();
    HoursAreNoDays();
    OthersAreDistinct();
    assert OTHERS[1] == START && OTHERS[2] == END && OTHERS[3] == NET_START && OTHERS[4] == NET_END;
    DayContent(prefs, day, DAY_OF_WEEK);
    HourOf(prefs, day, START);
    HourOf(prefs, day, END);
    HourOf(prefs, day, NET_START);
    HourOf(prefs, day, NET_END);
    hide Content, SpanLeaves, DecimalText, IntText, START, END, NET_START, NET_END, DAY_OF_WEEK, OTHERS;
  }
}
