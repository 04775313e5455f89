/**
  The saved configuration as text: what a client reads from the printed request (lib/src/xml.cc) is
  the tree that `CCConfig` builds, whatever else the fetched configuration held.
*/
module CCConfigWire {
  import opened Wrappers
  import opened Xml
  import opened XmlReader
  import opened XmlRoundTrip
  import opened Numbers
  import opened PreferencesReader
  import opened PreferencesWire
  import opened CCConfig
  import opened CCConfigTheorems

  /** A node that can take children: printable, with no content of its own. */
  predicate IsParent(n: Node) {
    Printable(n) && n.content == ""
  }

  /** The child that is found or created for the tag can take a content. */
  predicate TakesContent(n: Node, tag: string) {
    IsName(tag) && At(n, tag).children == []
  }

  predicate TextsFit(config: Config) {
    && (forall t <- config.options.Keys :: config.options[t].Text? ==> IsContent(config.options[t].text))
    && (forall s <- config.altPlatforms :: IsContent(s))
    && (forall s <- config.exclusiveApps :: IsContent(s))
    && (forall s <- config.exclusiveGpuApps :: IsContent(s))
  }

  /**
    The fetched configuration is printable; its parts that get children have no content, and those that
    get a content have no children and proper names; and the requested texts survive printing.
  */
  predicate Sendable(reply: Node, tags: seq<string>, config: Config) {
    var current := At(reply, CC_CONFIG);
    var options, logFlags := At(current, OPTIONS_TAG), At(current, LOG_FLAGS_TAG);
    && IsParent(current) && IsParent(options) && IsParent(logFlags)
    && (forall t <- tags :: TakesContent(options, t))
    && (forall f <- config.logFlags :: TakesContent(logFlags, f.name))
    && TextsFit(config)
  }

  // ----- the names of the options -----

  lemma SwitchesAreNames()
    ensures forall i :: 0 <= i < 11 ==> IsName(SWITCHES[i])
  {
  }

  lemma MiddleSwitchesAreNames()
    ensures forall i :: 11 <= i < 22 ==> IsName(SWITCHES[i])
  {
  }

  lemma LastSwitchesAreNames()
    ensures |SWITCHES| == 33 && forall i :: 22 <= i < 33 ==> IsName(SWITCHES[i])
  {
  }

  lemma SettingsAreNames()
    ensures forall i :: 0 <= i < 8 ==> IsName(SETTINGS[i])
  {
  }

  lemma LastSettingsAreNames()
    ensures |SETTINGS| == 15 && forall i :: 8 <= i < 15 ==> IsName(SETTINGS[i])
  {
  }

  /** So what `Sendable` asks of the tags holds of all scalar options. */
  lemma OptionsAreNames()
    ensures forall t <- OPTIONS :: IsName(t)
  {
    SwitchesAreNames();
    MiddleSwitchesAreNames();
    LastSwitchesAreNames();
    SettingsAreNames();
    LastSettingsAreNames();
    hide IsName, SWITCHES, SETTINGS;
    forall t | t in OPTIONS ensures IsName(t) {
      var i :| 0 <= i < |OPTIONS| && OPTIONS[i] == t;
    }
  }

  // ----- the merged tree is printable -----

  lemma ValueIsContent(value: Value)
    requires value.Text? ==> IsContent(value.text)
    ensures IsContent(ValueText(value))
  {
    hide IsContent, IsNumeric, IntText, DecimalText;
    match value
    case Flag(flag) =>
      IntIsNumeric(if flag then 1 else 0);
      NumericIsContent(IntText(if flag then 1 else 0));
    case Whole(i) =>
      IntIsNumeric(i);
      NumericIsContent(IntText(i));
    case Decimal(micros) =>
      DecimalIsNumeric(micros);
      NumericIsContent(DecimalText(micros));
    case Text(text) =>
  }

  lemma WithChildIsParent(n: Node, tag: string, value: Node)
    requires IsParent(n) && Printable(value)
    ensures IsParent(WithChild(n, tag, value)) && WithChild(n, tag, value).tag == n.tag
  {
    hide IsName, IsContent;
  }

  lemma SetIsParent(n: Node, tag: string, content: string)
    requires IsParent(n) && TakesContent(n, tag) && IsContent(content)
    ensures IsParent(Set(n, tag, content))
    ensures forall other :: TakesContent(n, other) ==> TakesContent(Set(n, tag, content), other)
  {
    hide IsName, IsContent;
    var child := At(n, tag).(content := content);
    AtHasTag(n, tag);
    assert Printable(child);
    WithChildIsParent(n, tag, child);
    forall other | TakesContent(n, other) ensures TakesContent(Set(n, tag, content), other) {
      AtWithChild(n, tag, child, other);
    }
  }

  lemma {:induction false} OptionsAreParent(n: Node, tags: seq<string>, options: map<string, Value>)
    requires IsParent(n) && forall t <- tags :: t in options && TakesContent(n, t)
    requires forall t <- options.Keys :: options[t].Text? ==> IsContent(options[t].text)
    ensures IsParent(WithOptions(n, tags, options))
    ensures forall other :: TakesContent(n, other) ==> TakesContent(WithOptions(n, tags, options), other)
  {
    hide IsParent, TakesContent, IsContent, ValueText, Set;
    if tags != [] {
      var front, last := tags[..|tags| - 1], tags[|tags| - 1];
      OptionsAreParent(n, front, options);
      ValueIsContent(options[last]);
      SetIsParent(WithOptions(n, front, options), last, ValueText(options[last]));
    }
  }

  lemma {:induction false} FlagsAreParent(n: Node, flags: seq<LogFlag>)
    requires IsParent(n) && forall f <- flags :: TakesContent(n, f.name)
    ensures IsParent(WithFlags(n, flags))
    ensures forall other :: TakesContent(n, other) ==> TakesContent(WithFlags(n, flags), other)
  {
    hide IsParent, TakesContent, IsContent, ValueText, Set;
    if flags != [] {
      var front, last := flags[..|flags| - 1], flags[|flags| - 1];
      FlagsAreParent(n, front);
      ValueIsContent(Flag(last.on));
      SetIsParent(WithFlags(n, front), last.name, ValueText(Flag(last.on)));
    }
  }

  lemma {:induction false} RemovedAmong(children: seq<Node>, tag: string)
    ensures forall c <- RemoveTag(children, tag) :: c in children
  {
    if children != [] {
      RemovedAmong(children[1..], tag);
    }
  }

  lemma RelistedIsParent(n: Node, cleared: string, tag: string, contents: seq<string>)
    requires IsParent(n) && IsName(tag) && forall s <- contents :: IsContent(s)
    ensures IsParent(Relisted(n, cleared, tag, contents))
  {
    hide IsName, IsContent;
    RemovedAmong(n.children, cleared);
    forall c <- Listed(tag, contents) ensures Printable(c) {
      var i :| 0 <= i < |contents| && c == Node(tag, contents[i], [], false);
      assert contents[i] in contents;
    }
  }

  lemma ListTagsAreNames()
    ensures IsName(ALT_PLATFORM) && IsName(WRITTEN_APP) && IsName(GPU_APP)
  {
  }

  lemma MergedOptionsAreParent(n: Node, tags: seq<string>, config: Config)
    requires Fits(config, tags) && IsParent(n) && TextsFit(config)
    requires forall t <- tags :: TakesContent(n, t)
    ensures IsParent(MergedOptions(n, tags, config))
  {
    ListTagsAreNames();
    OptionsAreParent(n, tags, config.options);
    hide IsParent, IsName, IsContent, Relisted, ALT_PLATFORM, EXCLUSIVE_APP, WRITTEN_APP, GPU_APP;
    var scalars := WithOptions(n, tags, config.options);
    var platforms := Relisted(scalars, ALT_PLATFORM, ALT_PLATFORM, config.altPlatforms);
    var apps := Relisted(platforms, EXCLUSIVE_APP, WRITTEN_APP, config.exclusiveApps);
    RelistedIsParent(scalars, ALT_PLATFORM, ALT_PLATFORM, config.altPlatforms);
    RelistedIsParent(platforms, EXCLUSIVE_APP, WRITTEN_APP, config.exclusiveApps);
    RelistedIsParent(apps, GPU_APP, GPU_APP, config.exclusiveGpuApps);
  }

  lemma MergedIsParent(reply: Node, tags: seq<string>, config: Config)
    requires Fits(config, tags) && Sendable(reply, tags, config)
    ensures IsParent(Merged(reply, tags, config))
  {
    hide TakesContent, TextsFit, MergedOptions, WithFlags, CC_CONFIG, OPTIONS_TAG, LOG_FLAGS_TAG;
    var current := At(reply, CC_CONFIG);
    var options, logFlags := At(current, OPTIONS_TAG), At(current, LOG_FLAGS_TAG);
    MergedOptionsAreParent(options, tags, config);
    FlagsAreParent(logFlags, config.logFlags);
    hide At, WithChild, Printable;
    var changed := WithChild(current, OPTIONS_TAG, MergedOptions(options, tags, config));
    WithChildIsParent(current, OPTIONS_TAG, MergedOptions(options, tags, config));
    WithChildIsParent(changed, LOG_FLAGS_TAG, WithFlags(logFlags, config.logFlags));
  }

  // ----- what is read -----

  lemma {:induction false} PlainContents(children: seq<Node>, tag: string)
    ensures Contents(PlainAll(children), tag) == Contents(children, tag)
    ensures Content(PlainAll(children), tag) == Content(children, tag)
    ensures FindChild(PlainAll(children), tag) == FindChild(children, tag) && |PlainAll(children)| == |children|
  {
    if children != [] {
      var plain := PlainAll(children);
      assert plain[0] == Plain(children[0]) && plain[1..] == PlainAll(children[1..]);
      PlainContents(children[1..], tag);
    }
  }

  lemma {:induction false} PlainIndex(children: seq<Node>, i: nat)
    requires i < |children|
    ensures |PlainAll(children)| == |children| && PlainAll(children)[i] == Plain(children[i])
  {
    PlainContents(children, "");
    assert PlainAll(children)[1..] == PlainAll(children[1..]);
    if i > 0 {
      PlainIndex(children[1..], i - 1);
    }
  }

  lemma PlainAt(n: Node, tag: string)
    ensures At(Plain(n), tag) == Plain(At(n, tag))
  {
    PlainContents(n.children, tag);
    var i := FindChild(n.children, tag);
    if i < |n.children| {
      PlainIndex(n.children, i);
    }
  }

  /** The printed configuration is read back as the merged tree. */
  lemma SavedTextRoundTrip(reply: Node, tags: seq<string>, config: Config, level: nat)
    requires Fits(config, tags) && Sendable(reply, tags, config)
    ensures var item := ReadDocument(Print(Merged(reply, tags, config), level));
            && item.Some? && item.value.Element?
            && ToNode(item.value) == Plain(Merged(reply, tags, config))
  {
    hide Sendable, Merged, Print, ReadDocument, Plain;
    MergedIsParent(reply, tags, config);
    PrintReadRoundTrip(Merged(reply, tags, config), level);
  }

  /**
    Saving over the wire: in the text that is sent, every scalar option and every log flag reads as it
    was requested, and so do the lists of platforms and GPU applications; the list of exclusive
    applications reads as empty.
  */
  lemma SavedTextSays(reply: Node, tags: seq<string>, config: Config, level: nat)
    requires Fits(config, tags) && Sendable(reply, tags, config) && UniqueNames(config.logFlags)
    ensures var item := ReadDocument(Print(Merged(reply, tags, config), level));
            && item.Some? && item.value.Element?
            && var options, logFlags := At(ToNode(item.value), OPTIONS_TAG), At(ToNode(item.value), LOG_FLAGS_TAG);
               && (forall t <- tags :: Content(options.children, t) == Some(ValueText(config.options[t]))
                                       && ReadsAs(ValueText(config.options[t]), config.options[t]))
               && (forall f <- config.logFlags :: Content(logFlags.children, f.name) == Some(ValueText(Flag(f.on))))
               && Contents(options.children, ALT_PLATFORM) == config.altPlatforms
               && Contents(options.children, GPU_APP) == config.exclusiveGpuApps
               && Contents(options.children, EXCLUSIVE_APP) == []
  {
    hide Sendable, Merged, MergedOptions, WithFlags, Print, ReadDocument, Content, Contents, ValueText, ReadsAs;
    hide ALT_PLATFORM, EXCLUSIVE_APP, GPU_APP, OPTIONS_TAG, LOG_FLAGS_TAG, CC_CONFIG;
    SavedTextRoundTrip(reply, tags, config, level);
    MergedParts(reply, tags, config);
    var current, sent := At(reply, CC_CONFIG), Merged(reply, tags, config);
    PlainAt(sent, OPTIONS_TAG);
    PlainAt(sent, LOG_FLAGS_TAG);
    OptionsSay(At(current, OPTIONS_TAG), tags, config);
    FlagsSay(At(current, LOG_FLAGS_TAG), config.logFlags);
  }

  lemma OptionsSay(n: Node, tags: seq<string>, config: Config)
    requires Fits(config, tags)
    ensures var children := Plain(MergedOptions(n, tags, config)).children;
            && (forall t <- tags :: Content(children, t) == Some(ValueText(config.options[t]))
                                    && ReadsAs(ValueText(config.options[t]), config.options[t]))
            && Contents(children, ALT_PLATFORM) == config.altPlatforms
            && Contents(children, GPU_APP) == config.exclusiveGpuApps
            && Contents(children, EXCLUSIVE_APP) == []
  {
    hide MergedOptions, Content, Contents, ValueText, ReadsAs, ALT_PLATFORM, EXCLUSIVE_APP, GPU_APP;
    var merged := MergedOptions(n, tags, config);
    ListsAfterSave(n, tags, config);
    PlainContents(merged.children, ALT_PLATFORM);
    PlainContents(merged.children, GPU_APP);
    PlainContents(merged.children, EXCLUSIVE_APP);
    forall t <- tags
      ensures Content(Plain(merged).children, t) == Some(ValueText(config.options[t]))
      ensures ReadsAs(ValueText(config.options[t]), config.options[t])
    {
      OptionsAreWritten(n, tags, config, t);
      PlainContents(merged.children, t);
    }
  }

  lemma FlagsSay(n: Node, flags: seq<LogFlag>)
    requires UniqueNames(flags)
    ensures var children := Plain(WithFlags(n, flags)).children;
            forall f <- flags :: Content(children, f.name) == Some(ValueText(Flag(f.on)))
  {
    hide WithFlags, Content, ValueText;
    forall f <- flags ensures Content(Plain(WithFlags(n, flags)).children, f.name) == Some(ValueText(Flag(f.on))) {
      var i :| 0 <= i < |flags| && flags[i] == f;
      FlagsAreWritten(n, flags, i);
      PlainContents(WithFlags(n, flags).children, f.name);
    }
  }
}
