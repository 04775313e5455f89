/**
  What the parser of preferences makes of any node, in terms of the first children with a tag and of the
  numbers their texts are read as: when it has a result, and what it is, field by field.
*/
module PreferencesParsed {
  import opened Wrappers
  import opened Xml
  import opened Numbers
  import opened Preferences
  import opened PreferencesReader

  // ----- what can be read -----

  predicate DecimalIfThere(children: seq<Node>, tag: string) {
    match Content(children, tag)
    case Some(text) => ParseDecimal(text).Some?
    case None => true
  }

  predicate IntIfThere(children: seq<Node>, tag: string) {
    match Content(children, tag)
    case Some(text) => ParseInt(text).Some?
    case None => true
  }

  /** The hours of a span: none, or a start with its end, both numbers, and a day for them. */
  predicate SpanReadable(children: seq<Node>, start: string, end: string) {
    Content(children, start).Some? ==>
      && Content(children, end).Some? && Content(children, "day_of_week").Some?
      && DecimalIfThere(children, start) && DecimalIfThere(children, end)
  }

  predicate DayReadable(children: seq<Node>) {
    && IntIfThere(children, "day_of_week")
    && SpanReadable(children, "start_hour", "end_hour")
    && SpanReadable(children, "net_start_hour", "net_end_hour")
  }

  predicate DaysReadable(children: seq<Node>) {
    forall c <- children :: c.tag == "day_prefs" ==> DayReadable(c.children)
  }

  predicate Readable(children: seq<Node>) {
    && (forall t <- LIMITS :: DecimalIfThere(children, t))
    && IntIfThere(children, "daily_xfer_period_days")
    && DecimalIfThere(children, "start_hour") && DecimalIfThere(children, "end_hour")
    && DecimalIfThere(children, "net_start_hour") && DecimalIfThere(children, "net_end_hour")
    && DaysReadable(children)
  }

  lemma DayHasResultIff(children: seq<Node>, p: GlobalPreferences)
    ensures WithDay(children, p).Some? <==> DayReadable(children)
  {
    hide ParseInt, ParseDecimal, Content;
  }

  lemma {:induction false} DaysHaveResultIff(children: seq<Node>, p: GlobalPreferences)
    ensures WithDays(children, p).Some? <==> DaysReadable(children)
  {
    if children != [] {
      hide WithDay, DayReadable;
      var first, rest := children[0], children[1..];
      assert DaysReadable(children)
        <==> (first.tag == "day_prefs" ==> DayReadable(first.children)) && DaysReadable(rest);
      DayHasResultIff(first.children, p);
      if first.tag == "day_prefs" && WithDay(first.children, p).Some? {
        DaysHaveResultIff(rest, WithDay(first.children, p).value);
      } else {
        DaysHaveResultIff(rest, p);
      }
    }
  }

  lemma ScalarsHaveResultIff(children: seq<Node>, dest: GlobalPreferences)
    ensures Scalars(children, dest).Some?
       <==> && (forall t <- LIMITS :: DecimalIfThere(children, t)) && IntIfThere(children, "daily_xfer_period_days")
            && DecimalIfThere(children, "start_hour") && DecimalIfThere(children, "end_hour")
            && DecimalIfThere(children, "net_start_hour") && DecimalIfThere(children, "net_end_hour")
  {
    hide LIMITS, ParseInt, ParseDecimal, Content, FlagsOf, LimitsOf;
  }

  /** The parser has a result if and only if every number that is there can be read, and every day's span is whole. */
  lemma ParsedIffReadable(children: seq<Node>, dest: GlobalPreferences)
    ensures Parsed(children, dest).Some? <==> Readable(children)
  {
    hide Scalars, WithDays, DecimalIfThere, IntIfThere, DaysReadable, LIMITS;
    ScalarsHaveResultIff(children, dest);
    if Scalars(children, dest).Some? {
      DaysHaveResultIff(children, Scalars(children, dest).value);
    }
  }

  // ----- the scalar fields -----

  /** The number under the first child with a tag, or what the record had before. */
  function NumberOr(children: seq<Node>, tag: string, before: int): int
    requires DecimalIfThere(children, tag)
  {
    match Content(children, tag)
    case Some(text) => ParseDecimal(text).value
    case None => before
  }

  lemma {:induction false} DaysKeepScalars(children: seq<Node>, p: GlobalPreferences)
    ensures var r := WithDays(children, p);
            r.Some? ==> r.value == p.(dailyCpuTimes := r.value.dailyCpuTimes, dailyNetTimes := r.value.dailyNetTimes)
  {
    hide WithSpan;
    if children != [] {
      if children[0].tag != "day_prefs" {
        DaysKeepScalars(children[1..], p);
      } else if WithDay(children[0].children, p).Some? {
        DaysKeepScalars(children[1..], WithDay(children[0].children, p).value);
      }
    }
  }

  /** A flag is set if its first child is there and is not "0"; a number that is not there stays as it was. */
  lemma ParsedScalars(children: seq<Node>, dest: GlobalPreferences)
    requires Complete(dest) && Readable(children)
    ensures Parsed(children, dest).Some?
    ensures var p := Parsed(children, dest).value;
            && Complete(p)
            && (forall t <- FLAGS :: p.flags[t] <==>
                  exists i :: 0 <= i < |children| && children[i].tag == t && children[i].content != "0"
                              && forall j :: 0 <= j < i ==> children[j].tag != t)
            && (forall t <- LIMITS :: p.limits[t] == NumberOr(children, t, dest.limits[t]))
            && p.periodDays == (match Content(children, "daily_xfer_period_days")
                                case Some(text) => ParseInt(text).value
                                case None => dest.periodDays)
            && p.cpuTimes == TimeSpan(NumberOr(children, "start_hour", dest.cpuTimes.start),
                                      NumberOr(children, "end_hour", dest.cpuTimes.end))
            && p.netTimes == TimeSpan(NumberOr(children, "net_start_hour", dest.netTimes.start),
                                      NumberOr(children, "net_end_hour", dest.netTimes.end))
  {
    ParsedIffReadable(children, dest);
    hide LIMITS, FLAGS, ParseInt, ParseDecimal, WithDays, DaysReadable;
    var s := Scalars(children, dest).value;
    DaysKeepScalars(children, s);
    forall t <- FLAGS
      ensures FlagAt(children, t) <==>
                exists i :: 0 <= i < |children| && children[i].tag == t && children[i].content != "0"
                            && forall j :: 0 <= j < i ==> children[j].tag != t
    {
      FlagIs(children, t);
    }
  }

  lemma FlagIs(children: seq<Node>, tag: string)
    ensures FlagAt(children, tag) <==>
              exists i :: 0 <= i < |children| && children[i].tag == tag && children[i].content != "0"
                          && forall j :: 0 <= j < i ==> children[j].tag != tag
  {
    var i := FindChild(children, tag);
  }

  // ----- the days -----

  function DailyTimes(p: GlobalPreferences, net: bool): map<Day, TimeSpan> {
    if net then p.dailyNetTimes else p.dailyCpuTimes
  }

  /** This child gives the day a span, of the processor or of the network. */
  predicate Gives(child: Node, day: Day, net: bool) {
    && child.tag == "day_prefs" && Content(child.children, if net then "net_start_hour" else "start_hour").Some?
    && match Content(child.children, "day_of_week")
       case Some(text) => ParseInt(text).Some? && IsDay(ParseInt(text).value, day)
       case None => false
  }

  /** Sunday to Saturday are 0 to 6, and everything else the unknown day. */
  predicate IsDay(i: int, day: Day) {
    if 0 <= i <= 6 then day == i else day == 7
  }

  function GivenSpan(child: Node, net: bool): TimeSpan
    requires DecimalIfThere(child.children, if net then "net_start_hour" else "start_hour")
    requires DecimalIfThere(child.children, if net then "net_end_hour" else "end_hour")
  {
    TimeSpan(NumberOr(child.children, if net then "net_start_hour" else "start_hour", 0),
             NumberOr(child.children, if net then "net_end_hour" else "end_hour", 0))
  }

  /** One day's node: it gives at most this day a span, and only if there is none yet. */
  lemma OneDayIs(child: Node, p: GlobalPreferences, day: Day, net: bool)
    requires child.tag == "day_prefs" && DayReadable(child.children)
    ensures WithDay(child.children, p).Some?
    ensures var before, after := DailyTimes(p, net), DailyTimes(WithDay(child.children, p).value, net);
            && (day in after <==> day in before || Gives(child, day, net))
            && (day in before ==> after[day] == before[day])
            && (day !in before && Gives(child, day, net) ==> after[day] == GivenSpan(child, net))
  {
    DayHasResultIff(child.children, p);
    hide ParseInt, ParseDecimal, Content;
  }

  /** The first child that gives the day a span, or the number of children. */
  function FirstGiving(children: seq<Node>, day: Day, net: bool): (i: nat)
    ensures i <= |children| && forall j :: 0 <= j < i ==> !Gives(children[j], day, net)
    ensures i < |children| ==> Gives(children[i], day, net)
  {
    if children == [] || Gives(children[0], day, net) then 0 else 1 + FirstGiving(children[1..], day, net)
  }

  lemma GivingIsReadable(children: seq<Node>, i: nat, day: Day, net: bool)
    requires DaysReadable(children) && i < |children| && Gives(children[i], day, net)
    ensures DecimalIfThere(children[i].children, if net then "net_start_hour" else "start_hour")
    ensures DecimalIfThere(children[i].children, if net then "net_end_hour" else "end_hour")
  {
    assert children[i] in children && DayReadable(children[i].children);
    hide ParseInt, ParseDecimal, Content;
  }

  /**
    The times of a day after parsing: those the record had before, or else those of the first node that
    gives the day a span; a day that has neither has none.
  */
  lemma {:induction false} ParsedDays(children: seq<Node>, p: GlobalPreferences, day: Day, net: bool)
    requires DaysReadable(children)
    ensures WithDays(children, p).Some?
    ensures var before, after := DailyTimes(p, net), DailyTimes(WithDays(children, p).value, net);
            var i := FirstGiving(children, day, net);
            && (day in after <==> day in before || i < |children|)
            && (day in before ==> after[day] == before[day])
            && (day !in before && i < |children| ==>
                  && DecimalIfThere(children[i].children, if net then "net_start_hour" else "start_hour")
                  && DecimalIfThere(children[i].children, if net then "net_end_hour" else "end_hour")
                  && after[day] == GivenSpan(children[i], net))
  {
    if children == [] {
      assert WithDays(children, p) == Some(p);
    } else {
      var first, rest := children[0], children[1..];
      assert DaysReadable(rest) && (first.tag == "day_prefs" ==> DayReadable(first.children));
      DaysOneByOne(children, p);
      FirstOrLater(children, day, net);
      if Gives(first, day, net) {
        GivingIsReadable(children, 0, day, net);
      }
      GivesIsDay(first, day, net);
      hide *;
      if first.tag == "day_prefs" {
        OneDayIs(first, p, day, net);
        ParsedDays(rest, WithDay(first.children, p).value, day, net);
      } else {
        ParsedDays(rest, p, day, net);
      }
    }
  }

  lemma FirstOrLater(children: seq<Node>, day: Day, net: bool)
    requires children != []
    ensures FirstGiving(children, day, net)
         == if Gives(children[0], day, net) then 0 else 1 + FirstGiving(children[1..], day, net)
  {
  }

  lemma DaysOneByOne(children: seq<Node>, p: GlobalPreferences)
    requires children != [] && DaysReadable(children)
    ensures if children[0].tag != "day_prefs" then WithDays(children, p) == WithDays(children[1..], p)
            else
              && WithDay(children[0].children, p).Some?
              && WithDays(children, p) == WithDays(children[1..], WithDay(children[0].children, p).value)
  {
    if children[0].tag == "day_prefs" {
      assert DayReadable(children[0].children);
      DayHasResultIff(children[0].children, p);
    }
    hide WithDay;
  }

  lemma GivesIsDay(child: Node, day: Day, net: bool)
    ensures Gives(child, day, net) ==> child.tag == "day_prefs"
  {
  }
}
