/**
  What saving a configuration does to the fetched tree.
*/
module CCConfigTheorems {
  import opened Wrappers
  import opened Xml
  import opened Numbers
  import opened PreferencesReader
  import opened PreferencesRoundTrip
  import opened CCConfig

  /** The children whose tags are not among these, in their order. */
  function Others(children: seq<Node>, tags: set<string>): seq<Node> {
    if children == [] then []
    else (if children[0].tag in tags then [] else [children[0]]) + Others(children[1..], tags)
  }

  /** What woinc writes or removes among the options. */
  function OwnTags(tags: seq<string>): set<string> {
    (set t | t in tags) + {ALT_PLATFORM, EXCLUSIVE_APP, WRITTEN_APP, GPU_APP}
  }

  function FlagNames(flags: seq<LogFlag>): set<string> {
    set f | f in flags :: f.name
  }

  // ----- single changes -----

  lemma {:induction false} OthersConcat(a: seq<Node>, b: seq<Node>, tags: set<string>)
    ensures Others(a + b, tags) == Others(a, tags) + Others(b, tags)
  {
    if a == [] {
      assert a + b == b;
    } else {
      assert (a + b)[1..] == a[1..] + b;
      OthersConcat(a[1..], b, tags);
    }
  }

  lemma SplitAt<T>(s: seq<T>, i: nat, x: T)
    requires i < |s|
    ensures s == s[..i] + ([s[i]] + s[i + 1..]) && s[i := x] == s[..i] + ([x] + s[i + 1..])
  {
  }

  /** The one place where `n[tag]` changes the children. */
  lemma Around(n: Node, tag: string, value: Node) returns (front: seq<Node>, found: seq<Node>, rest: seq<Node>)
    ensures n.children == front + (found + rest) && WithChild(n, tag, value).children == front + ([value] + rest)
    ensures forall c <- front :: c.tag != tag
    ensures found == [] ==> rest == [] && At(n, tag) == NewNode(tag)
    ensures found != [] ==> found == [At(n, tag)] && At(n, tag).tag == tag
  {
    var i := FindChild(n.children, tag);
    front := n.children[..i];
    if i < |n.children| {
      found, rest := [n.children[i]], n.children[i + 1..];
      SplitAt(n.children, i, value);
    } else {
      found, rest := [], [];
      assert front == n.children && [value] + [] == [value];
    }
  }

  lemma OthersOfOwn(n: Node, tags: set<string>)
    requires n.tag in tags
    ensures Others([n], tags) == [] && Others([], tags) == []
  {
    assert [n][1..] == [];
  }

  /** A child that is found or created is not among the others. */
  lemma OthersWithChild(n: Node, tag: string, value: Node, tags: set<string>)
    requires tag in tags && value.tag == tag
    ensures Others(WithChild(n, tag, value).children, tags) == Others(n.children, tags)
  {
    hide Others, WithChild, At;
    var front, found, rest := Around(n, tag, value);
    OthersConcat(front, [value] + rest, tags);
    OthersConcat([value], rest, tags);
    OthersConcat(front, found + rest, tags);
    OthersConcat(found, rest, tags);
    OthersOfOwn(value, tags);
    if found != [] {
      OthersOfOwn(At(n, tag), tags);
    }
  }

  lemma OthersSet(n: Node, tag: string, content: string, tags: set<string>)
    requires tag in tags
    ensures Others(Set(n, tag, content).children, tags) == Others(n.children, tags)
  {
    OthersWithChild(n, tag, At(n, tag).(content := content), tags);
  }

  lemma {:induction false} OthersRemove(children: seq<Node>, tag: string, tags: set<string>)
    requires tag in tags
    ensures Others(RemoveTag(children, tag), tags) == Others(children, tags)
  {
    if children != [] {
      var first := if children[0].tag == tag then [] else [children[0]];
      OthersRemove(children[1..], tag, tags);
      OthersConcat(first, RemoveTag(children[1..], tag), tags);
      assert Others(first, tags) == if children[0].tag in tags then [] else [children[0]];
    }
  }

  lemma {:induction false} OthersListed(tag: string, contents: seq<string>, tags: set<string>)
    requires tag in tags
    ensures Others(Listed(tag, contents), tags) == []
  {
    if contents != [] {
      assert Listed(tag, contents)[1..] == Listed(tag, contents[1..]);
      OthersListed(tag, contents[1..], tags);
    }
  }

  lemma OthersRelisted(n: Node, cleared: string, tag: string, contents: seq<string>, tags: set<string>)
    requires cleared in tags && tag in tags
    ensures Others(Relisted(n, cleared, tag, contents).children, tags) == Others(n.children, tags)
  {
    OthersRemove(n.children, cleared, tags);
    OthersListed(tag, contents, tags);
    OthersConcat(RemoveTag(n.children, cleared), Listed(tag, contents), tags);
  }

  lemma ContentWithChild(n: Node, tag: string, value: Node, other: string)
    requires value.tag == tag
    ensures Content(WithChild(n, tag, value).children, other)
         == if other == tag then Some(value.content) else Content(n.children, other)
  {
    hide Content, WithChild, At;
    var front, found, rest := Around(n, tag, value);
    ContentInConcat(front, [value] + rest, other);
    ContentInConcat([value], rest, other);
    ContentOfOne(value, other);
    ContentNone(front, tag);
    ContentInConcat(front, found + rest, other);
    ContentInConcat(found, rest, other);
    if found != [] {
      ContentOfOne(At(n, tag), other);
    } else {
      ContentNone([], other);
    }
  }

  lemma ContentSet(n: Node, tag: string, content: string, other: string)
    ensures Content(Set(n, tag, content).children, other)
         == if other == tag then Some(content) else Content(n.children, other)
  {
    ContentWithChild(n, tag, At(n, tag).(content := content), other);
  }

  lemma ContentNone(children: seq<Node>, tag: string)
    requires forall c <- children :: c.tag != tag
    ensures Content(children, tag) == None
  {
  }

  // ----- the options and the flags -----

  lemma {:induction false} OthersWithOptions(n: Node, tags: seq<string>, options: map<string, Value>, own: set<string>)
    requires forall t <- tags :: t in options && t in own
    ensures Others(WithOptions(n, tags, options).children, own) == Others(n.children, own)
  {
    hide ValueText, Set;
    if tags != [] {
      var front, last := tags[..|tags| - 1], tags[|tags| - 1];
      OthersWithOptions(n, front, options, own);
      OthersSet(WithOptions(n, front, options), last, ValueText(options[last]), own);
    }
  }

  lemma {:induction false} ContentWithOptions(n: Node, tags: seq<string>, options: map<string, Value>, tag: string)
    requires forall t <- tags :: t in options
    ensures Content(WithOptions(n, tags, options).children, tag)
         == if tag in tags then Some(ValueText(options[tag])) else Content(n.children, tag)
  {
    hide ValueText, Set;
    if tags != [] {
      var front, last := tags[..|tags| - 1], tags[|tags| - 1];
      assert tags == front + [last];
      ContentWithOptions(n, front, options, tag);
      ContentSet(WithOptions(n, front, options), last, ValueText(options[last]), tag);
    }
  }

  /** Unknown options survive unchanged and in their order. */
  lemma UnknownOptionsSurvive(n: Node, tags: seq<string>, config: Config)
    requires Fits(config, tags)
    ensures Others(MergedOptions(n, tags, config).children, OwnTags(tags)) == Others(n.children, OwnTags(tags))
  {
    hide Relisted;
    var scalars := WithOptions(n, tags, config.options);
    var platforms := Relisted(scalars, ALT_PLATFORM, ALT_PLATFORM, config.altPlatforms);
    var apps := Relisted(platforms, EXCLUSIVE_APP, WRITTEN_APP, config.exclusiveApps);
    OthersWithOptions(n, tags, config.options, OwnTags(tags));
    OthersRelisted(scalars, ALT_PLATFORM, ALT_PLATFORM, config.altPlatforms, OwnTags(tags));
    OthersRelisted(platforms, EXCLUSIVE_APP, WRITTEN_APP, config.exclusiveApps, OwnTags(tags));
    OthersRelisted(apps, GPU_APP, GPU_APP, config.exclusiveGpuApps, OwnTags(tags));
  }

  lemma {:induction false} UnknownFlagsSurvive(n: Node, flags: seq<LogFlag>, own: set<string>)
    requires FlagNames(flags) <= own
    ensures Others(WithFlags(n, flags).children, own) == Others(n.children, own)
  {
    hide ValueText, Set;
    if flags != [] {
      var front, last := flags[..|flags| - 1], flags[|flags| - 1];
      assert last.name in FlagNames(flags) && FlagNames(front) <= FlagNames(flags);
      UnknownFlagsSurvive(n, front, own);
      OthersSet(WithFlags(n, front), last.name, ValueText(Flag(last.on)), own);
    }
  }

  /** `LogFlags::set` keeps one flag per name. */
  predicate UniqueNames(flags: seq<LogFlag>) {
    forall i, j :: 0 <= i < j < |flags| ==> flags[i].name != flags[j].name
  }

  lemma {:induction false} FlagsAreWritten(n: Node, flags: seq<LogFlag>, i: nat)
    requires UniqueNames(flags) && i < |flags|
    ensures Content(WithFlags(n, flags).children, flags[i].name) == Some(ValueText(Flag(flags[i].on)))
  {
    hide ValueText, Set;
    var front, last := flags[..|flags| - 1], flags[|flags| - 1];
    ContentSet(WithFlags(n, front), last.name, ValueText(Flag(last.on)), flags[i].name);
    if i < |front| {
      FlagsAreWritten(n, front, i);
    }
  }

  // ----- the lists -----

  lemma {:induction false} ContentsRemove(children: seq<Node>, cleared: string, tag: string)
    ensures Contents(RemoveTag(children, cleared), tag) == if tag == cleared then [] else Contents(children, tag)
  {
    if children != [] {
      var first := if children[0].tag == cleared then [] else [children[0]];
      ContentsRemove(children[1..], cleared, tag);
      ContentsConcat(first, RemoveTag(children[1..], cleared), tag);
      assert [children[0]][1..] == [];
    }
  }

  lemma {:induction false} ContentsListed(listed: string, contents: seq<string>, tag: string)
    ensures Contents(Listed(listed, contents), tag) == if tag == listed then contents else []
  {
    if contents != [] {
      assert Listed(listed, contents)[1..] == Listed(listed, contents[1..]);
      ContentsListed(listed, contents[1..], tag);
    }
  }

  lemma ContentsRelisted(n: Node, cleared: string, listed: string, contents: seq<string>, tag: string)
    ensures Contents(Relisted(n, cleared, listed, contents).children, tag)
         == (if tag == cleared then [] else Contents(n.children, tag)) + (if tag == listed then contents else [])
  {
    hide Contents, RemoveTag, Listed;
    ContentsRemove(n.children, cleared, tag);
    ContentsListed(listed, contents, tag);
    ContentsConcat(RemoveTag(n.children, cleared), Listed(listed, contents), tag);
  }

  lemma ContentsOfOne(n: Node, tag: string)
    ensures Contents([n], tag) == (if n.tag == tag then [n.content] else []) && Contents([], tag) == []
  {
    assert [n][1..] == [];
  }

  lemma ContentsSet(n: Node, tag: string, content: string, other: string)
    requires other != tag
    ensures Contents(Set(n, tag, content).children, other) == Contents(n.children, other)
  {
    hide Contents, WithChild, At;
    var value := At(n, tag).(content := content);
    var front, found, rest := Around(n, tag, value);
    AtHasTag(n, tag);
    ContentsConcat(front, [value] + rest, other);
    ContentsConcat([value], rest, other);
    ContentsConcat(front, found + rest, other);
    ContentsConcat(found, rest, other);
    ContentsOfOne(value, other);
    ContentsOfOne(At(n, tag), other);
  }

  lemma AtHasTag(n: Node, tag: string)
    ensures At(n, tag).tag == tag
  {
  }

  lemma {:induction false} ContentsWithOptions(n: Node, tags: seq<string>, options: map<string, Value>, tag: string)
    requires tag !in tags && forall t <- tags :: t in options
    ensures Contents(WithOptions(n, tags, options).children, tag) == Contents(n.children, tag)
  {
    hide ValueText, Set;
    if tags != [] {
      var front, last := tags[..|tags| - 1], tags[|tags| - 1];
      ContentsWithOptions(n, front, options, tag);
      ContentsSet(WithOptions(n, front, options), last, ValueText(options[last]), tag);
    }
  }

  /**
    The lists after a save: platforms and GPU applications are the requested ones; no `exclusive_app`
    is left, and the requested ones are appended under the other tag.
  */
  lemma ListsAfterSave(n: Node, tags: seq<string>, config: Config)
    requires Fits(config, tags)
    ensures var children := MergedOptions(n, tags, config).children;
            && Contents(children, ALT_PLATFORM) == config.altPlatforms
            && Contents(children, GPU_APP) == config.exclusiveGpuApps
            && Contents(children, EXCLUSIVE_APP) == []
            && Contents(children, WRITTEN_APP) == Contents(n.children, WRITTEN_APP) + config.exclusiveApps
  {
    TagsDiffer();
    hide Contents, Relisted, MergedOptions, ALT_PLATFORM, EXCLUSIVE_APP, WRITTEN_APP, GPU_APP;
    ListAfterSave(n, tags, config, ALT_PLATFORM);
    ListAfterSave(n, tags, config, EXCLUSIVE_APP);
    ListAfterSave(n, tags, config, WRITTEN_APP);
    ListAfterSave(n, tags, config, GPU_APP);
  }

  lemma ListAfterSave(n: Node, tags: seq<string>, config: Config, tag: string)
    requires Fits(config, tags) && tag !in tags
    ensures Contents(MergedOptions(n, tags, config).children, tag)
         == (if tag == GPU_APP then []
             else (if tag == EXCLUSIVE_APP then []
                   else (if tag == ALT_PLATFORM then [] else Contents(n.children, tag))
                        + (if tag == ALT_PLATFORM then config.altPlatforms else []))
                  + (if tag == WRITTEN_APP then config.exclusiveApps else []))
            + (if tag == GPU_APP then config.exclusiveGpuApps else [])
  {
    hide Contents, Relisted, ALT_PLATFORM, EXCLUSIVE_APP, WRITTEN_APP, GPU_APP;
    var scalars := WithOptions(n, tags, config.options);
    var platforms := Relisted(scalars, ALT_PLATFORM, ALT_PLATFORM, config.altPlatforms);
    var apps := Relisted(platforms, EXCLUSIVE_APP, WRITTEN_APP, config.exclusiveApps);
    ContentsWithOptions(n, tags, config.options, tag);
    ContentsRelisted(scalars, ALT_PLATFORM, ALT_PLATFORM, config.altPlatforms, tag);
    ContentsRelisted(platforms, EXCLUSIVE_APP, WRITTEN_APP, config.exclusiveApps, tag);
    ContentsRelisted(apps, GPU_APP, GPU_APP, config.exclusiveGpuApps, tag);
  }

  /** Reading back what was saved gives the requested lists exactly when no exclusive application was requested. */
  lemma ListsReadBackIff(n: Node, tags: seq<string>, config: Config)
    requires Fits(config, tags)
    ensures var children := MergedOptions(n, tags, config).children;
            (&& Contents(children, ALT_PLATFORM) == config.altPlatforms
             && Contents(children, EXCLUSIVE_APP) == config.exclusiveApps
             && Contents(children, GPU_APP) == config.exclusiveGpuApps)
            <==> config.exclusiveApps == []
  {
    ListsAfterSave(n, tags, config);
  }

  // ----- the scalar options -----

  lemma {:induction false} ContentRemove(children: seq<Node>, cleared: string, tag: string)
    requires tag != cleared
    ensures Content(RemoveTag(children, cleared), tag) == Content(children, tag)
  {
    if children != [] {
      var first := if children[0].tag == cleared then [] else [children[0]];
      ContentRemove(children[1..], cleared, tag);
      ContentInConcat(first, RemoveTag(children[1..], cleared), tag);
      ContentInConcat([children[0]], children[1..], tag);
      assert children == [children[0]] + children[1..];
      ContentOfOne(children[0], tag);
    }
  }

  lemma ContentRelisted(n: Node, cleared: string, listed: string, contents: seq<string>, tag: string)
    requires tag != cleared && tag != listed
    ensures Content(Relisted(n, cleared, listed, contents).children, tag) == Content(n.children, tag)
  {
    ContentRemove(n.children, cleared, tag);
    ContentInConcat(RemoveTag(n.children, cleared), Listed(listed, contents), tag);
    ContentNone(Listed(listed, contents), tag);
  }

  /** What `parse__` makes of a content, for the type of the option. */
  predicate ReadsAs(content: string, value: Value) {
    match value
    case Flag(flag) => (content != "0") == flag
    case Whole(i) => ParseInt(content) == Some(i)
    case Decimal(micros) => ParseDecimal(content) == Some(micros)
    case Text(text) => content == text
  }

  lemma ValueBack(value: Value)
    ensures ReadsAs(ValueText(value), value)
  {
    match value
    case Flag(flag) =>
      assert Digits(0) == [Digit(0)] && Digits(1) == [Digit(1)];
      assert ValueText(Flag(false)) == [Digit(0)] == "0";
      assert ValueText(Flag(true))[0] == Digit(1) == '1';
    case Whole(i) => IntRoundTrip(i);
    case Decimal(micros) => DecimalRoundTrip(micros);
    case Text(text) =>
  }

  /** The first child of every scalar option carries the requested value, and reads as it. */
  lemma OptionsAreWritten(n: Node, tags: seq<string>, config: Config, tag: string)
    requires Fits(config, tags) && tag in tags
    ensures Content(MergedOptions(n, tags, config).children, tag) == Some(ValueText(config.options[tag]))
    ensures ReadsAs(ValueText(config.options[tag]), config.options[tag])
  {
    ValueBack(config.options[tag]);
    hide Content, Relisted, ValueText, ReadsAs, ALT_PLATFORM, EXCLUSIVE_APP, WRITTEN_APP, GPU_APP;
    var scalars := WithOptions(n, tags, config.options);
    var platforms := Relisted(scalars, ALT_PLATFORM, ALT_PLATFORM, config.altPlatforms);
    var apps := Relisted(platforms, EXCLUSIVE_APP, WRITTEN_APP, config.exclusiveApps);
    ContentWithOptions(n, tags, config.options, tag);
    ContentRelisted(scalars, ALT_PLATFORM, ALT_PLATFORM, config.altPlatforms, tag);
    ContentRelisted(platforms, EXCLUSIVE_APP, WRITTEN_APP, config.exclusiveApps, tag);
    ContentRelisted(apps, GPU_APP, GPU_APP, config.exclusiveGpuApps, tag);
  }

  // ----- the whole configuration -----

  lemma {:induction false} WithoutPrefix(children: seq<Node>, i: nat, value: Node, tag: string)
    requires i < |children| && value.tag == children[i].tag
    ensures FindChild(children[i := value], tag) == FindChild(children, tag)
  {
    if i > 0 && children[0].tag != tag {
      assert children[i := value][1..] == children[1..][i - 1 := value];
      WithoutPrefix(children[1..], i - 1, value, tag);
    } else if i == 0 {
      assert children[i := value][1..] == children[1..];
    }
  }

  lemma AtWithChild(n: Node, tag: string, value: Node, other: string)
    requires value.tag == tag
    ensures At(WithChild(n, tag, value), other) == if other == tag then value else At(n, other)
  {
    var i := FindChild(n.children, tag);
    if i < |n.children| {
      WithoutPrefix(n.children, i, value, other);
    } else {
      FindInConcat(n.children, [value], other);
      assert FindChild([value], other) == if other == tag then 0 else 1 by { assert [value][1..] == []; }
    }
  }

  lemma WithChildAt(n: Node, tag: string)
    requires FindChild(n.children, tag) < |n.children|
    ensures WithChild(n, tag, At(n, tag)) == n
  {
  }

  lemma {:induction false} OptionsKeepTag(n: Node, tags: seq<string>, options: map<string, Value>)
    requires forall t <- tags :: t in options
    ensures WithOptions(n, tags, options).tag == n.tag
  {
    if tags != [] {
      OptionsKeepTag(n, tags[..|tags| - 1], options);
    }
  }

  lemma {:induction false} FlagsKeepTag(n: Node, flags: seq<LogFlag>)
    ensures WithFlags(n, flags).tag == n.tag
  {
    if flags != [] {
      FlagsKeepTag(n, flags[..|flags| - 1]);
    }
  }

  /**
    The sent configuration has the merged options and log flags in it, and everything else that was
    fetched, unchanged and in order.
  */
  lemma MergedParts(reply: Node, tags: seq<string>, config: Config)
    requires Fits(config, tags)
    ensures var current, sent := At(reply, CC_CONFIG), Merged(reply, tags, config);
            && Others(sent.children, {OPTIONS_TAG, LOG_FLAGS_TAG})
                == Others(current.children, {OPTIONS_TAG, LOG_FLAGS_TAG})
            && At(sent, OPTIONS_TAG) == MergedOptions(At(current, OPTIONS_TAG), tags, config)
            && At(sent, LOG_FLAGS_TAG) == WithFlags(At(current, LOG_FLAGS_TAG), config.logFlags)
            && sent == current.(children := sent.children)
  {
    TagsDiffer();
    hide OPTIONS_TAG, LOG_FLAGS_TAG, CC_CONFIG, Relisted;
    var current := At(reply, CC_CONFIG);
    var options, flags := At(current, OPTIONS_TAG), At(current, LOG_FLAGS_TAG);
    var merged := MergedOptions(options, tags, config);
    var changed := WithChild(current, OPTIONS_TAG, merged);
    MergedKeepsTag(options, tags, config);
    FlagsKeepTag(flags, config.logFlags);
    AtHasTag(current, OPTIONS_TAG);
    AtHasTag(current, LOG_FLAGS_TAG);
    OthersWithChild(current, OPTIONS_TAG, merged, {OPTIONS_TAG, LOG_FLAGS_TAG});
    OthersWithChild(changed, LOG_FLAGS_TAG, WithFlags(flags, config.logFlags), {OPTIONS_TAG, LOG_FLAGS_TAG});
    AtWithChild(current, OPTIONS_TAG, merged, LOG_FLAGS_TAG);
    AtWithChild(current, OPTIONS_TAG, merged, OPTIONS_TAG);
    AtWithChild(changed, LOG_FLAGS_TAG, WithFlags(flags, config.logFlags), OPTIONS_TAG);
    AtWithChild(changed, LOG_FLAGS_TAG, WithFlags(flags, config.logFlags), LOG_FLAGS_TAG);
  }

  lemma MergedKeepsTag(n: Node, tags: seq<string>, config: Config)
    requires Fits(config, tags)
    ensures MergedOptions(n, tags, config).tag == n.tag
  {
    OptionsKeepTag(n, tags, config.options);
  }
}
