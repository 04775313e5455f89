/**
  Saving the configuration of a client (SetCCConfigCommand in lib/src/rpc_command.cc): the current
  configuration is fetched, what woinc knows is changed in its tree, and the tree is sent back, so
  that what woinc does not know survives. The parser of the lists is in lib/src/rpc_parsing.cc.
*/
module CCConfig {
  import opened Xml
  import opened Numbers

  const SWITCHES: seq<string> := [
    "abort_jobs_on_exit", "allow_multiple_clients", "allow_remote_gui_rpc", "disallow_attach",
    "dont_check_file_sizes", "dont_contact_ref_site", "dont_suspend_nci", "dont_use_vbox", "dont_use_wsl",
    "exit_after_finish", "exit_before_start", "exit_when_idle", "fetch_minimal_work", "fetch_on_update",
    "http_1_0", "lower_client_priority", "no_alt_platform", "no_gpus", "no_info_fetch", "no_opencl",
    "no_priority_change", "os_random_only", "report_results_immediately", "run_apps_manually",
    "simple_gui_only", "skip_cpu_benchmarks", "stderr_head", "suppress_net_info", "unsigned_apps_ok",
    "use_all_gpus", "use_certs", "use_certs_only", "vbox_window"]

  const SETTINGS: seq<string> := [
    "rec_half_life_days", "start_delay", "http_transfer_timeout", "http_transfer_timeout_bps",
    "max_event_log_lines", "max_file_xfers", "max_file_xfers_per_project", "max_stderr_file_size",
    "max_stdout_file_size", "max_tasks_reported",
    "ncpus", "process_priority", "process_priority_special", "save_stats_days", "force_auth"]

  /** The options that are written one by one, in this order. */
  const OPTIONS := SWITCHES + SETTINGS

  const ALT_PLATFORM := "alt_platform"
  const EXCLUSIVE_APP := "exclusive_app"
  const WRITTEN_APP := "exclusive__app"   // the tag the exclusive apps are written under
  const GPU_APP := "exclusive_gpu_app"

  const CC_CONFIG := "cc_config"
  const OPTIONS_TAG := "options"
  const LOG_FLAGS_TAG := "log_flags"

  datatype Value = Flag(flag: bool) | Whole(whole: Int32) | Decimal(micros: int) | Text(text: string)

  datatype LogFlag = LogFlag(name: string, on: bool)

  datatype Config = Config(options: map<string, Value>, altPlatforms: seq<string>, exclusiveApps: seq<string>,
                           exclusiveGpuApps: seq<string>, logFlags: seq<LogFlag>)

  /** The configuration has a value for each of these scalar tags, none of which is the tag of a list. */
  predicate Fits(config: Config, tags: seq<string>) {
    && config.options.Keys == (set t | t in tags)
    && ALT_PLATFORM !in tags && EXCLUSIVE_APP !in tags && WRITTEN_APP !in tags && GPU_APP !in tags
  }

  /** The record of the source has exactly the options. */
  predicate Complete(config: Config) {
    config.options.Keys == (set t | t in OPTIONS)
  }

  lemma AltPlatformIsNoOption()
    ensures ALT_PLATFORM !in OPTIONS
  {
    assert ALT_PLATFORM !in SWITCHES;
    assert ALT_PLATFORM !in SETTINGS;
  }

  lemma ExclusiveAppIsNoOption()
    ensures EXCLUSIVE_APP !in OPTIONS
  {
    assert EXCLUSIVE_APP !in SWITCHES;
    assert EXCLUSIVE_APP !in SETTINGS;
  }

  lemma WrittenAppIsNoOption()
    ensures WRITTEN_APP !in OPTIONS
  {
    assert WRITTEN_APP !in SWITCHES;
    assert WRITTEN_APP !in SETTINGS;
  }

  lemma GpuAppIsNoOption()
    ensures GPU_APP !in OPTIONS
  {
    assert GPU_APP !in SWITCHES;
    assert GPU_APP !in SETTINGS;
  }

  lemma OptionsFit(config: Config)
    requires Complete(config)
    ensures Fits(config, OPTIONS)
  {
    hide OPTIONS, SWITCHES, SETTINGS, ALT_PLATFORM, EXCLUSIVE_APP, WRITTEN_APP, GPU_APP;
    AltPlatformIsNoOption();
    ExclusiveAppIsNoOption();
    WrittenAppIsNoOption();
    GpuAppIsNoOption();
  }

  function ValueText(value: Value): string {
    match value
    case Flag(flag) => IntText(if flag then 1 else 0)
    case Whole(i) => IntText(i)
    case Decimal(micros) => DecimalText(micros)
    case Text(text) => text
  }

  /** The tags as they are sent. */
  lemma SentTags()
    ensures CC_CONFIG == "cc_config" && OPTIONS_TAG == "options" && LOG_FLAGS_TAG == "log_flags"
    ensures ALT_PLATFORM == "alt_platform" && EXCLUSIVE_APP == "exclusive_app" && GPU_APP == "exclusive_gpu_app"
    ensures WRITTEN_APP == "exclusive__app"
    ensures ValueText(Flag(true)) == "1" && ValueText(Flag(false)) == "0"
  {
    DigitsAreDecimal(1);
    DigitsAreDecimal(0);
  }

  // ----- the changed tree -----

  function WithOptions(n: Node, tags: seq<string>, options: map<string, Value>): Node
    requires forall t <- tags :: t in options
  {
    if tags == [] then n
    else
      var last := tags[|tags| - 1];
      Set(WithOptions(n, tags[..|tags| - 1], options), last, ValueText(options[last]))
  }

  function WithFlags(n: Node, flags: seq<LogFlag>): Node {
    if flags == [] then n
    else
      var last := flags[|flags| - 1];
      Set(WithFlags(n, flags[..|flags| - 1]), last.name, ValueText(Flag(last.on)))
  }

  function Listed(tag: string, contents: seq<string>): seq<Node> {
    seq(|contents|, i requires 0 <= i < |contents| => Node(tag, contents[i], [], false))
  }

  /** All children with tag `cleared` go, and one child with tag `tag` is appended for each content. */
  function Relisted(n: Node, cleared: string, tag: string, contents: seq<string>): Node {
    n.(children := RemoveTag(n.children, cleared) + Listed(tag, contents))
  }

  /** The options node after a save, for a table of scalar tags in the order they are written. */
  function MergedOptions(n: Node, tags: seq<string>, config: Config): Node
    requires Fits(config, tags)
  {
    var scalars := WithOptions(n, tags, config.options);
    var platforms := Relisted(scalars, ALT_PLATFORM, ALT_PLATFORM, config.altPlatforms);
    var apps := Relisted(platforms, EXCLUSIVE_APP, WRITTEN_APP, config.exclusiveApps);
    Relisted(apps, GPU_APP, GPU_APP, config.exclusiveGpuApps)
  }

  /** The `cc_config` node that is sent, from the root of the reply that was fetched. */
  function Merged(reply: Node, tags: seq<string>, config: Config): Node
    requires Fits(config, tags)
  {
    var current := At(reply, CC_CONFIG);
    var changed := WithChild(current, OPTIONS_TAG, MergedOptions(At(current, OPTIONS_TAG), tags, config));
    WithChild(changed, LOG_FLAGS_TAG, WithFlags(At(current, LOG_FLAGS_TAG), config.logFlags))
  }

  method MergeConfig(reply: Node, config: Config) returns (node: Node)
    requires Complete(config)
    ensures Fits(config, OPTIONS) && node == Merged(reply, OPTIONS, config)
  {
    OptionsFit(config);
    hide OPTIONS, SWITCHES, SETTINGS, Complete;
    node := MergeTagged(reply, OPTIONS, config);
  }

  method MergeTagged(reply: Node, tags: seq<string>, config: Config) returns (node: Node)
    requires Fits(config, tags)
    ensures node == Merged(reply, tags, config)
  {
    hide ValueText, Set, At, WithChild;
    node := At(reply, CC_CONFIG);
    var options := new EditableNode(At(node, OPTIONS_TAG));
    var logFlags := new EditableNode(At(node, LOG_FLAGS_TAG));
    SetOptions(options, tags, config.options);
    Relist(options, ALT_PLATFORM, ALT_PLATFORM, config.altPlatforms);
    Relist(options, EXCLUSIVE_APP, WRITTEN_APP, config.exclusiveApps);
    Relist(options, GPU_APP, GPU_APP, config.exclusiveGpuApps);
    SetLogFlags(logFlags, config.logFlags);
    node := WithChild(node, OPTIONS_TAG, options.Value());
    node := WithChild(node, LOG_FLAGS_TAG, logFlags.Value());
  }

  method SetOptions(node: EditableNode, tags: seq<string>, options: map<string, Value>)
    requires forall t <- tags :: t in options
    modifies node
    ensures node.Value() == WithOptions(old(node.Value()), tags, options)
  {
    hide ValueText, Set;
    for i := 0 to |tags|
      invariant node.Value() == WithOptions(old(node.Value()), tags[..i], options)
    {
      assert tags[i] in tags && tags[..i + 1] == tags[..i] + [tags[i]];
      node.SetChild(tags[i], ValueText(options[tags[i]]));
    }
    assert tags[..|tags|] == tags;
  }

  method SetLogFlags(node: EditableNode, flags: seq<LogFlag>)
    modifies node
    ensures node.Value() == WithFlags(old(node.Value()), flags)
  {
    hide ValueText, Set;
    for i := 0 to |flags|
      invariant node.Value() == WithFlags(old(node.Value()), flags[..i])
    {
      assert flags[..i + 1][..i] == flags[..i];
      node.SetChild(flags[i].name, ValueText(Flag(flags[i].on)));
    }
    assert flags[..|flags|] == flags;
  }

  method Relist(node: EditableNode, cleared: string, tag: string, contents: seq<string>)
    modifies node
    ensures node.Value() == Relisted(old(node.Value()), cleared, tag, contents)
  {
    node.RemoveAll(cleared);
    ghost var n := old(node.Value());
    for i := 0 to |contents|
      invariant node.Value() == n.(children := RemoveTag(n.children, cleared) + Listed(tag, contents[..i]))
    {
      assert Listed(tag, contents[..i + 1]) == Listed(tag, contents[..i]) + [Node(tag, contents[i], [], false)];
      node.AddChildWith(tag, contents[i]);
    }
    assert contents[..|contents|] == contents;
  }

  // ----- reading the lists back -----

  function Contents(children: seq<Node>, tag: string): seq<string> {
    if children == [] then []
    else (if children[0].tag == tag then [children[0].content] else []) + Contents(children[1..], tag)
  }

  /** The loop over the children of the options. */
  method ReadLists(options: Node)
      returns (altPlatforms: seq<string>, exclusiveApps: seq<string>, exclusiveGpuApps: seq<string>)
    ensures altPlatforms == Contents(options.children, ALT_PLATFORM)
    ensures exclusiveApps == Contents(options.children, EXCLUSIVE_APP)
    ensures exclusiveGpuApps == Contents(options.children, GPU_APP)
  {
    altPlatforms, exclusiveApps, exclusiveGpuApps := [], [], [];
    TagsDiffer();
    hide ALT_PLATFORM, EXCLUSIVE_APP, GPU_APP;
    var children := options.children;
    for i := 0 to |children|
      invariant altPlatforms == Contents(children[..i], ALT_PLATFORM)
      invariant exclusiveApps == Contents(children[..i], EXCLUSIVE_APP)
      invariant exclusiveGpuApps == Contents(children[..i], GPU_APP)
    {
      NextContent(children, i, ALT_PLATFORM);
      NextContent(children, i, EXCLUSIVE_APP);
      NextContent(children, i, GPU_APP);
      hide Contents;
      if children[i].tag == ALT_PLATFORM {
        altPlatforms := altPlatforms + [children[i].content];
      } else if children[i].tag == EXCLUSIVE_APP {
        exclusiveApps := exclusiveApps + [children[i].content];
      } else if children[i].tag == GPU_APP {
        exclusiveGpuApps := exclusiveGpuApps + [children[i].content];
      }
    }
    assert children[..|children|] == children;
  }

  lemma {:induction false} ContentsConcat(a: seq<Node>, b: seq<Node>, tag: string)
    ensures Contents(a + b, tag) == Contents(a, tag) + Contents(b, tag)
  {
    if a == [] {
      assert a + b == b;
    } else {
      assert (a + b)[1..] == a[1..] + b;
      ContentsConcat(a[1..], b, tag);
    }
  }

  lemma NextContent(children: seq<Node>, i: nat, tag: string)
    requires i < |children|
    ensures Contents(children[..i + 1], tag)
         == Contents(children[..i], tag) + (if children[i].tag == tag then [children[i].content] else [])
  {
    var last := [children[i]];
    assert children[..i + 1] == children[..i] + last && last[1..] == [];
    ContentsConcat(children[..i], last, tag);
  }

  lemma TagsDiffer()
    ensures |{ALT_PLATFORM, EXCLUSIVE_APP, WRITTEN_APP, GPU_APP}| == 4
    ensures ALT_PLATFORM != EXCLUSIVE_APP && ALT_PLATFORM != WRITTEN_APP && ALT_PLATFORM != GPU_APP
    ensures EXCLUSIVE_APP != WRITTEN_APP && EXCLUSIVE_APP != GPU_APP && WRITTEN_APP != GPU_APP
    ensures OPTIONS_TAG != LOG_FLAGS_TAG
  {
    assert WRITTEN_APP[10] == '_' && GPU_APP[10] == 'g';
  }
}
