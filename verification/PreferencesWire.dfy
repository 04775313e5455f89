/**
  Preferences as text: printing the written node, reading the text and parsing what was read.
  And which daily times a mask keeps out.
*/
module PreferencesWire {
  import opened Wrappers
  import opened Xml
  import opened XmlReader
  import opened XmlRoundTrip
  import opened Numbers
  import opened Preferences
  import opened PreferencesReader
  import opened PreferencesRoundTrip

  // ----- what is written can be printed and read back -----

  /** A number's text: it starts with a digit, after a sign at most. */
  predicate IsNumeric(text: string) {
    && (forall c <- text :: IsDigit(c) || c == '-' || c == '.')
    && (exists c <- text :: IsDigit(c))
  }

  lemma NumericIsContent(text: string)
    requires IsNumeric(text)
    ensures IsContent(text) && text != ""
  {
    var c :| c in text && IsDigit(c);
    assert !IsSpace(c);
    NoSpecialsIsLiteral(text);
    hide Literal;
  }

  lemma IntIsNumeric(i: int)
    ensures IsNumeric(IntText(i))
  {
    var digits := Digits(Abs(i));
    DigitsValue(Abs(i));
    assert IntText(i)[|Sign(i)|] == digits[0];
    assert digits[0] in digits && IntText(i)[|Sign(i)|] in IntText(i);
    assert forall c <- IntText(i) :: c in Sign(i) || c in digits;
  }

  lemma DecimalIsNumeric(micros: int)
    ensures IsNumeric(DecimalText(micros))
  {
    hide Digits, Padded, Value, DecimalText;
    var digits, part := Digits(Abs(micros) / MILLION), Padded(Abs(micros) % MILLION, 6);
    DigitsValue(Abs(micros) / MILLION);
    PaddedValue(Abs(micros) % MILLION, 6);
    DecimalParts(micros);
    SignedNumeric(Sign(micros), digits, part);
  }

  lemma DecimalParts(micros: int)
    ensures DecimalText(micros)
         == Sign(micros) + (Digits(Abs(micros) / MILLION) + ("." + Padded(Abs(micros) % MILLION, 6)))
  {
  }

  lemma SignedNumeric(sign: string, digits: string, part: string)
    requires sign == "" || sign == "-"
    requires digits != "" && (forall c <- digits :: IsDigit(c)) && forall c <- part :: IsDigit(c)
    ensures IsNumeric(sign + (digits + ("." + part)))
  {
    var text := sign + (digits + ("." + part));
    assert digits[0] in digits && text[|sign|] == digits[0] && text[|sign|] in text;
    forall c | c in text ensures IsDigit(c) || c == '-' || c == '.' {
      assert c in sign || c in digits || c == '.' || c in part;
    }
  }

  lemma FlagsAreNames()
    ensures forall t <- FLAGS :: IsName(t)
  {
  }

  lemma FirstLimitsAreNames()
    ensures forall i :: 0 <= i < 9 ==> IsName(LIMITS[i])
  {
  }

  lemma LastLimitsAreNames()
    ensures |LIMITS| == 17 && forall i :: 9 <= i < 17 ==> IsName(LIMITS[i])
  {
  }

  lemma OthersAreNames()
    ensures (forall t <- OTHERS :: IsName(t)) && IsName(DAY_OF_WEEK) && IsName("global_preferences")
  {
  }

  lemma TagsAreNames()
    ensures (forall t <- TAGS :: IsName(t)) && IsName(DAY_PREFS)
  {
    FlagsAreNames();
    FirstLimitsAreNames();
    LastLimitsAreNames();
    OthersAreNames();
    hide IsName, FLAGS, LIMITS, PERIOD, START, END, NET_START, NET_END, DAY_PREFS, DAY_OF_WEEK;
    forall t | t in LIMITS ensures IsName(t) {
      var i :| 0 <= i < |LIMITS| && LIMITS[i] == t;
    }
  }

  /** A leaf with a number is printable, and reading it loses nothing. */
  predicate Sound(n: Node) {
    Printable(n) && Plain(n) == n
  }

  lemma LeafIsSound(tag: string, content: string)
    requires IsName(tag) && IsNumeric(content)
    ensures Sound(Leaf(tag, content))
  {
    hide IsName;
    NumericIsContent(content);
    assert PlainAll([]) == [];
  }

  lemma WrittenIsNumeric(prefs: GlobalPreferences, mask: Mask, tag: string)
    requires Complete(prefs)
    ensures match Written(prefs, mask, tag) case Some(text) => IsNumeric(text) case None => true
  {
    hide FLAGS, LIMITS, DEFAULTS, IntText, DecimalText, IsNumeric;
    forall i ensures IsNumeric(IntText(i)) {
      IntIsNumeric(i);
    }
    forall i ensures IsNumeric(DecimalText(i)) {
      DecimalIsNumeric(i);
    }
  }

  lemma {:induction false} LeavesAreSound(prefs: GlobalPreferences, mask: Mask, tags: seq<string>)
    requires Complete(prefs) && forall t <- tags :: IsName(t)
    ensures forall c <- Leaves(prefs, mask, tags) :: Sound(c)
  {
    hide Complete, Written, Sound, Leaf, IsName, IsNumeric;
    if tags != [] {
      var last := tags[|tags| - 1];
      LeavesAreSound(prefs, mask, tags[..|tags| - 1]);
      WrittenIsNumeric(prefs, mask, last);
      match Written(prefs, mask, last) {
        case Some(text) => LeafIsSound(last, text);
        case None =>
      }
    }
  }

  lemma SpanLeavesAreSound(times: map<Day, TimeSpan>, day: Day, start: string, end: string)
    requires IsName(start) && IsName(end)
    ensures forall c <- SpanLeaves(times, day, start, end) :: Sound(c)
  {
    hide Sound, Leaf, IsName, IsNumeric, DecimalText;
    if day in times {
      DecimalIsNumeric(times[day].start);
      DecimalIsNumeric(times[day].end);
      LeafIsSound(start, DecimalText(times[day].start));
      LeafIsSound(end, DecimalText(times[day].end));
    }
  }

  lemma {:induction false} SoundChildren(children: seq<Node>)
    requires forall c <- children :: Sound(c)
    ensures PlainAll(children) == children
  {
    if children != [] {
      assert Sound(children[0]);
      SoundChildren(children[1..]);
    }
  }

  lemma ParentIsSound(tag: string, children: seq<Node>, reset: bool)
    requires IsName(tag) && forall c <- children :: Sound(c)
    ensures Printable(Node(tag, "", children, reset))
         && Plain(Node(tag, "", children, reset)) == Node(tag, "", children, false)
  {
    hide IsName;
    SoundChildren(children);
  }

  lemma DayIsSound(prefs: GlobalPreferences, day: Day)
    ensures Sound(DayNode(prefs, day))
  {
    OthersAreNames();
    hide Sound, IsName, IsNumeric, SpanLeaves, IntText, Leaf;
    assert OTHERS[1] == START && OTHERS[2] == END && OTHERS[3] == NET_START && OTHERS[4] == NET_END
        && OTHERS[5] == DAY_PREFS;
    SpanLeavesAreSound(prefs.dailyCpuTimes, day, START, END);
    SpanLeavesAreSound(prefs.dailyNetTimes, day, NET_START, NET_END);
    IntIsNumeric(day);
    LeafIsSound(DAY_OF_WEEK, IntText(day));
    var n := DayNode(prefs, day);
    assert n == Node(DAY_PREFS, "", n.children, false);
    ParentIsSound(DAY_PREFS, n.children, false);
    SoundIs(n);
  }

  lemma SoundIs(n: Node)
    requires Printable(n) && Plain(n) == n
    ensures Sound(n)
  {
  }

  lemma {:induction false} DaysAreSound(prefs: GlobalPreferences, days: set<Day>, from: nat)
    requires from <= 8
    ensures forall c <- DayNodes(prefs, days, from) :: Sound(c)
    decreases 8 - from
  {
    hide Sound, DayNode;
    if from < 8 {
      DayIsSound(prefs, from);
      DaysAreSound(prefs, days, from + 1);
    }
  }

  lemma WrittenIsSound(prefs: GlobalPreferences, mask: Mask)
    requires Complete(prefs)
    ensures var n := WrittenNode(prefs, mask); Printable(n) && Plain(n) == n.(resetIndentation := false)
  {
    TagsAreNames();
    OthersAreNames();
    hide Sound, IsName, TAGS, OTHERS, Leaves, DayNodes, Complete;
    var n := WrittenNode(prefs, mask);
    LeavesAreSound(prefs, mask, TAGS);
    DaysAreSound(prefs, Days(prefs, mask), 0);
    ParentIsSound("global_preferences", n.children, true);
  }

  /**
    The preferences survive as text: at any indentation, what is printed can be read, and parsing it
    gives the masked fields and the defaults described by `Expected`.
  */
  lemma TextRoundTrip(prefs: GlobalPreferences, mask: Mask, dest: GlobalPreferences, level: nat)
    requires Complete(prefs) && Complete(dest)
    ensures var item := ReadDocument(Print(WrittenNode(prefs, mask), level));
            && item.Some? && item.value.Element?
            && Parsed(ToNode(item.value).children, dest) == Some(Expected(prefs, mask, dest))
  {
    hide Parsed, Expected, WrittenNode, Complete, Print, ReadDocument, Printable, Plain;
    var n := WrittenNode(prefs, mask);
    WrittenIsSound(prefs, mask);
    PrintReadRoundTrip(n, level);
    RoundTrip(prefs, mask, dest);
  }

  // ----- the daily masks -----

  /**
    One mask lets the other map's times through: the days of either map get both their times. The
    times are what their own mask says exactly when that mask is set, the other is not, or no day is
    in both maps.
  */
  lemma DailyMaskIsObeyedIff(prefs: GlobalPreferences, mask: Mask, dest: GlobalPreferences)
    requires Complete(prefs) && Complete(dest) && dest.dailyCpuTimes == map[] && dest.dailyNetTimes == map[]
    ensures var parsed := Parsed(WrittenNode(prefs, mask).children, dest);
            && parsed.Some?
            && (parsed.value.dailyCpuTimes == (if mask.dailyCpuTimes then prefs.dailyCpuTimes else map[])
                <==> mask.dailyCpuTimes || !mask.dailyNetTimes || prefs.dailyCpuTimes.Keys !! prefs.dailyNetTimes.Keys)
            && (parsed.value.dailyNetTimes == (if mask.dailyNetTimes then prefs.dailyNetTimes else map[])
                <==> mask.dailyNetTimes || !mask.dailyCpuTimes || prefs.dailyCpuTimes.Keys !! prefs.dailyNetTimes.Keys)
  {
    hide Parsed, WrittenNode, Complete, FLAGS, LIMITS, DEFAULTS;
    RoundTrip(prefs, mask, dest);
    MaskObeyed(prefs.dailyCpuTimes, prefs.dailyNetTimes, mask.dailyCpuTimes, mask.dailyNetTimes);
    MaskObeyed(prefs.dailyNetTimes, prefs.dailyCpuTimes, mask.dailyNetTimes, mask.dailyCpuTimes);
    assert Days(prefs, mask) == (if mask.dailyNetTimes then prefs.dailyNetTimes.Keys else {})
                                + (if mask.dailyCpuTimes then prefs.dailyCpuTimes.Keys else {});
  }

  lemma MaskObeyed(own: map<Day, TimeSpan>, other: map<Day, TimeSpan>, ownMask: bool, otherMask: bool)
    ensures Times(own, (if ownMask then own.Keys else {}) + (if otherMask then other.Keys else {}), map[])
         == (if ownMask then own else map[])
       <==> ownMask || !otherMask || own.Keys !! other.Keys
  {
    var days := (if ownMask then own.Keys else {}) + (if otherMask then other.Keys else {});
    var times := Times(own, days, map[]);
    assert times.Keys == own.Keys * days;
    if ownMask {
      assert times == own;
    } else if otherMask {
      assert times.Keys == own.Keys * other.Keys;
      assert times == map[] <==> times.Keys == {};
    }
  }
}
