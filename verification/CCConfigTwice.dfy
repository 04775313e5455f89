/**
  Saving the same configuration again, when the client returns what it was sent.
*/
module CCConfigTwice {
  import opened Wrappers
  import opened Xml
  import opened PreferencesReader
  import opened CCConfig
  import opened CCConfigTheorems

  // ----- lists without a tag -----

  predicate Free(children: seq<Node>, tag: string) {
    forall c <- children :: c.tag != tag
  }

  lemma {:induction false} RemoveFree(children: seq<Node>, tag: string)
    requires Free(children, tag)
    ensures RemoveTag(children, tag) == children
  {
    if children != [] {
      RemoveFree(children[1..], tag);
    }
  }

  lemma {:induction false} Removed(children: seq<Node>, cleared: string, tag: string)
    ensures Free(RemoveTag(children, cleared), cleared)
    ensures Free(children, tag) ==> Free(RemoveTag(children, cleared), tag)
  {
    if children != [] {
      Removed(children[1..], cleared, tag);
    }
  }

  lemma {:induction false} RemoveListed(listed: string, contents: seq<string>, tag: string)
    ensures RemoveTag(Listed(listed, contents), tag) == if tag == listed then [] else Listed(listed, contents)
  {
    if contents != [] {
      assert Listed(listed, contents)[1..] == Listed(listed, contents[1..]);
      RemoveListed(listed, contents[1..], tag);
      assert [Listed(listed, contents)[0]] + Listed(listed, contents[1..]) == Listed(listed, contents);
    }
  }

  /** The children without the three lists that are rewritten. */
  function Kept(children: seq<Node>): seq<Node> {
    RemoveTag(RemoveTag(RemoveTag(children, ALT_PLATFORM), EXCLUSIVE_APP), GPU_APP)
  }

  lemma KeptIsFree(children: seq<Node>)
    ensures Free(Kept(children), ALT_PLATFORM) && Free(Kept(children), EXCLUSIVE_APP) && Free(Kept(children), GPU_APP)
  {
    hide Free;
    var once := RemoveTag(children, ALT_PLATFORM);
    var twice := RemoveTag(once, EXCLUSIVE_APP);
    Removed(children, ALT_PLATFORM, ALT_PLATFORM);
    Removed(once, EXCLUSIVE_APP, ALT_PLATFORM);
    Removed(twice, GPU_APP, ALT_PLATFORM);
    Removed(twice, GPU_APP, EXCLUSIVE_APP);
  }

  /** Rewriting a list behind others that are not affected. */
  lemma RelistedBehind(n: Node, front: seq<Node>, listed: seq<Node>, cleared: string, tag: string,
                       contents: seq<string>)
    requires n.children == front + listed && RemoveTag(listed, cleared) == listed
    ensures Relisted(n, cleared, tag, contents).children == RemoveTag(front, cleared) + (listed + Listed(tag, contents))
  {
    hide RemoveTag, Listed;
    RemoveConcat(front, listed, cleared);
  }

  /** All that a save does to the children of the options. */
  lemma MergedShape(n: Node, tags: seq<string>, config: Config)
    requires Fits(config, tags)
    ensures MergedOptions(n, tags, config).children
         == Kept(WithOptions(n, tags, config.options).children)
            + (Listed(ALT_PLATFORM, config.altPlatforms) + Listed(WRITTEN_APP, config.exclusiveApps)
               + Listed(GPU_APP, config.exclusiveGpuApps))
  {
    TagsDiffer();
    hide Relisted, RemoveTag, Listed, ALT_PLATFORM, EXCLUSIVE_APP, WRITTEN_APP, GPU_APP;
    var scalars := WithOptions(n, tags, config.options);
    var platforms := Relisted(scalars, ALT_PLATFORM, ALT_PLATFORM, config.altPlatforms);
    var apps := Relisted(platforms, EXCLUSIVE_APP, WRITTEN_APP, config.exclusiveApps);
    var once := RemoveTag(scalars.children, ALT_PLATFORM);
    var first, second := Listed(ALT_PLATFORM, config.altPlatforms), Listed(WRITTEN_APP, config.exclusiveApps);
    RelistedIs(scalars, ALT_PLATFORM, ALT_PLATFORM, config.altPlatforms);
    RemoveListed(ALT_PLATFORM, config.altPlatforms, EXCLUSIVE_APP);
    RelistedBehind(platforms, once, first, EXCLUSIVE_APP, WRITTEN_APP, config.exclusiveApps);
    RemoveListed(ALT_PLATFORM, config.altPlatforms, GPU_APP);
    RemoveListed(WRITTEN_APP, config.exclusiveApps, GPU_APP);
    RemoveConcat(first, second, GPU_APP);
    RelistedBehind(apps, RemoveTag(once, EXCLUSIVE_APP), first + second, GPU_APP, GPU_APP, config.exclusiveGpuApps);
  }

  lemma RelistedIs(n: Node, cleared: string, tag: string, contents: seq<string>)
    ensures Relisted(n, cleared, tag, contents).children == RemoveTag(n.children, cleared) + Listed(tag, contents)
  {
  }

  /** Without exclusive applications the rewritten lists are dropped and appended again as they were. */
  lemma KeptAgain(kept: seq<Node>, platforms: seq<string>, gpuApps: seq<string>)
    requires Free(kept, ALT_PLATFORM) && Free(kept, EXCLUSIVE_APP) && Free(kept, GPU_APP)
    ensures Kept(kept + (Listed(ALT_PLATFORM, platforms) + Listed(GPU_APP, gpuApps))) == kept
  {
    TagsDiffer();
    hide RemoveTag, Listed, Free, ALT_PLATFORM, EXCLUSIVE_APP, WRITTEN_APP, GPU_APP;
    var first, last := Listed(ALT_PLATFORM, platforms), Listed(GPU_APP, gpuApps);
    RemoveFree(kept, ALT_PLATFORM);
    RemoveFree(kept, EXCLUSIVE_APP);
    RemoveFree(kept, GPU_APP);
    RemoveListed(ALT_PLATFORM, platforms, ALT_PLATFORM);
    RemoveListed(GPU_APP, gpuApps, ALT_PLATFORM);
    RemoveListed(GPU_APP, gpuApps, EXCLUSIVE_APP);
    RemoveListed(GPU_APP, gpuApps, GPU_APP);
    RemoveConcat(first, last, ALT_PLATFORM);
    RemoveConcat(kept, first + last, ALT_PLATFORM);
    RemoveConcat(kept, last, EXCLUSIVE_APP);
    RemoveConcat(kept, last, GPU_APP);
    assert [] + last == last && kept + [] == kept;
  }

  // ----- values that are already there -----

  lemma SetAgain(n: Node, tag: string, content: string)
    requires Content(n.children, tag) == Some(content)
    ensures Set(n, tag, content) == n
  {
  }

  lemma {:induction false} OptionsAgain(n: Node, tags: seq<string>, options: map<string, Value>)
    requires forall t <- tags :: t in options && Content(n.children, t) == Some(ValueText(options[t]))
    ensures WithOptions(n, tags, options) == n
  {
    hide ValueText, Set, Content;
    if tags != [] {
      var front, last := tags[..|tags| - 1], tags[|tags| - 1];
      OptionsAgain(n, front, options);
      SetAgain(n, last, ValueText(options[last]));
    }
  }

  lemma {:induction false} FlagsAgain(n: Node, flags: seq<LogFlag>)
    requires forall f <- flags :: Content(n.children, f.name) == Some(ValueText(Flag(f.on)))
    ensures WithFlags(n, flags) == n
  {
    hide ValueText, Set, Content;
    if flags != [] {
      var front, last := flags[..|flags| - 1], flags[|flags| - 1];
      FlagsAgain(n, front);
      SetAgain(n, last.name, ValueText(Flag(last.on)));
    }
  }

  // ----- saving twice -----

  lemma OptionsTwice(n: Node, tags: seq<string>, config: Config)
    requires Fits(config, tags) && config.exclusiveApps == []
    ensures MergedOptions(MergedOptions(n, tags, config), tags, config) == MergedOptions(n, tags, config)
  {
    hide Relisted, Listed, Kept, WithOptions, Content, MergedOptions, Free, ValueText;
    var saved := MergedOptions(n, tags, config);
    forall t | t in tags ensures Content(saved.children, t) == Some(ValueText(config.options[t])) {
      OptionsAreWritten(n, tags, config, t);
    }
    OptionsAgain(saved, tags, config.options);
    MergedShape(n, tags, config);
    MergedShape(saved, tags, config);
    var kept := Kept(WithOptions(n, tags, config.options).children);
    KeptIsFree(WithOptions(n, tags, config.options).children);
    KeptAgain(kept, config.altPlatforms, config.exclusiveGpuApps);
    NoneListed(WRITTEN_APP);
    assert Listed(ALT_PLATFORM, config.altPlatforms) + [] == Listed(ALT_PLATFORM, config.altPlatforms);
    SameNode(saved, tags, config);
  }

  lemma NoneListed(tag: string)
    ensures Listed(tag, []) == []
  {
  }

  /** Apart from its children the node stays what it was. */
  lemma SameNode(n: Node, tags: seq<string>, config: Config)
    requires Fits(config, tags) && WithOptions(n, tags, config.options) == n
    ensures MergedOptions(n, tags, config) == n.(children := MergedOptions(n, tags, config).children)
  {
  }

  /** The reply of a client that has taken over what was sent. */
  function Fetched(reply: Node, tags: seq<string>, config: Config): Node
    requires Fits(config, tags)
  {
    WithChild(reply, CC_CONFIG, Merged(reply, tags, config))
  }

  /** Saving once more what is already saved changes nothing exactly when there are no exclusive applications. */
  lemma SavingTwiceIff(reply: Node, tags: seq<string>, config: Config)
    requires Fits(config, tags) && UniqueNames(config.logFlags)
    ensures Merged(Fetched(reply, tags, config), tags, config) == Merged(reply, tags, config)
         <==> config.exclusiveApps == []
  {
    hide MergedOptions, WithFlags, Contents, Content, Others, ValueText, WithChild, At, Merged;
    hide OPTIONS_TAG, LOG_FLAGS_TAG, CC_CONFIG, ALT_PLATFORM, EXCLUSIVE_APP, WRITTEN_APP, GPU_APP;
    var sent := Merged(reply, tags, config);
    var current := At(reply, CC_CONFIG);
    var options, flags := At(current, OPTIONS_TAG), At(current, LOG_FLAGS_TAG);
    MergedParts(reply, tags, config);
    AtHasTag(reply, CC_CONFIG);
    AtWithChild(reply, CC_CONFIG, sent, CC_CONFIG);
    MergedParts(Fetched(reply, tags, config), tags, config);
    ListsAfterSave(options, tags, config);
    ListsAfterSave(MergedOptions(options, tags, config), tags, config);
    if config.exclusiveApps == [] {
      OptionsTwice(options, tags, config);
      FlagsTwice(flags, config.logFlags);
      SentAgain(reply, Fetched(reply, tags, config), tags, config);
    }
  }

  lemma FlagsTwice(n: Node, flags: seq<LogFlag>)
    requires UniqueNames(flags)
    ensures WithFlags(WithFlags(n, flags), flags) == WithFlags(n, flags)
  {
    hide WithFlags, Content, ValueText;
    forall f | f in flags ensures Content(WithFlags(n, flags).children, f.name) == Some(ValueText(Flag(f.on))) {
      var i :| 0 <= i < |flags| && flags[i] == f;
      FlagsAreWritten(n, flags, i);
    }
    FlagsAgain(WithFlags(n, flags), flags);
  }

  lemma SentAgain(reply: Node, again: Node, tags: seq<string>, config: Config)
    requires Fits(config, tags)
    requires At(again, CC_CONFIG) == Merged(reply, tags, config)
    requires var current := At(reply, CC_CONFIG);
             var options, flags := At(current, OPTIONS_TAG), At(current, LOG_FLAGS_TAG);
             && MergedOptions(MergedOptions(options, tags, config), tags, config)
                == MergedOptions(options, tags, config)
             && WithFlags(WithFlags(flags, config.logFlags), config.logFlags) == WithFlags(flags, config.logFlags)
    ensures Merged(again, tags, config) == Merged(reply, tags, config)
  {
    hide MergedOptions, WithFlags, Others, At, WithChild;
    hide OPTIONS_TAG, LOG_FLAGS_TAG, CC_CONFIG;
    var sent := Merged(reply, tags, config);
    MergedParts(reply, tags, config);
    BothThere(reply, tags, config);
    WithChildAt(sent, OPTIONS_TAG);
    WithChildAt(sent, LOG_FLAGS_TAG);
  }

  lemma BothThere(reply: Node, tags: seq<string>, config: Config)
    requires Fits(config, tags)
    ensures FindChild(Merged(reply, tags, config).children, OPTIONS_TAG) < |Merged(reply, tags, config).children|
    ensures FindChild(Merged(reply, tags, config).children, LOG_FLAGS_TAG) < |Merged(reply, tags, config).children|
  {
    hide MergedOptions, WithFlags, At, WithChild, FindChild;
    hide OPTIONS_TAG, LOG_FLAGS_TAG, CC_CONFIG;
    var current := At(reply, CC_CONFIG);
    var options, flags := At(current, OPTIONS_TAG), At(current, LOG_FLAGS_TAG);
    MergedKeepsTag(options, tags, config);
    FlagsKeepTag(flags, config.logFlags);
    AtHasTag(current, OPTIONS_TAG);
    AtHasTag(current, LOG_FLAGS_TAG);
    var changed := WithChild(current, OPTIONS_TAG, MergedOptions(options, tags, config));
    ThereAfter(current, OPTIONS_TAG, MergedOptions(options, tags, config), OPTIONS_TAG);
    ThereAfter(changed, LOG_FLAGS_TAG, WithFlags(flags, config.logFlags), OPTIONS_TAG);
    ThereAfter(changed, LOG_FLAGS_TAG, WithFlags(flags, config.logFlags), LOG_FLAGS_TAG);
  }

  lemma ThereAfter(n: Node, tag: string, value: Node, other: string)
    requires value.tag == tag && (other == tag || FindChild(n.children, other) < |n.children|)
    ensures FindChild(WithChild(n, tag, value).children, other) < |WithChild(n, tag, value).children|
  {
    hide WithChild;
    ContentWithChild(n, tag, value, other);
  }
}
