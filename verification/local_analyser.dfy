/**
 * The local analyser, which drives a SonarQube runner: the runner's argument
 * string, the detection of the runner's "file indexed" log lines, and the
 * per-file analysis that runs every sensor, keeps the issues the profile
 * enables and merges them through the fail-open changed-lines filter.
 */
module LocalAnalyser {
  import opened Wrappers
  import opened Strings
  import opened Seqs
  import opened Issues
  import opened Dictionaries
  import opened DiffFilter
  import CxxLocalExtension

  // ---------------------------------------------------------------------------
  // GetArguments
  // ---------------------------------------------------------------------------

  datatype AnalysisMode = Incremental | Full | Preview

  /** The credentials of the server connection. */
  datatype Connection = Connection(username: string, password: string)

  const NotAvailableMessage := "Analysis Method Not Available in this Version of SonarQube"

  /** The modes a server version offers: preview from 3.4, incremental from 4.0. */
  predicate ModeAvailable(mode: AnalysisMode, version: real) {
    match mode
    case Full => true
    case Preview => version >= 3.4
    case Incremental => version >= 4.0
  }

  /** The fixed head of every argument string. */
  function Credentials(conf: Connection): string {
    "sonar:sonar -X -Dsonar.login=" + conf.username + " -Dsonar.password=" + conf.password
  }

  /** The mode flags the runner understands. */
  const IncrementalModeFlag := " -Dsonar.analysis.mode=incremental"
  const PreviewModeFlag := " -Dsonar.analysis.mode=preview"
  const PreviewExcludeFlag := " -Dsonar.preview.excludePlugins="
  const DryRunExcludeFlag := " -Dsonar.dryRun.excludePlugins="
  const DryRunFlag := " -Dsonar.dryRun=true"

  /** The option naming the plugins a preview or incremental analysis excludes. */
  function ExcludedPluginsKey(projectKey: string): string {
    projectKey + ".ExcludedPlugins"
  }

  /**
   * The flags of the analysis mode for the server version. A mode the
   * version does not offer throws; the excluded-plugins option is read only
   * for preview and incremental analyses, and throws when it is missing.
   */
  function ModeArguments(options: Dict, projectKey: string, mode: AnalysisMode, version: real): (r: Result<string>)
    ensures (r == Throws(NotAvailable(NotAvailableMessage))) <==> !ModeAvailable(mode, version)
    ensures mode == Full ==> r == Ok("")
    ensures ModeAvailable(mode, version) && mode != Full ==>
      (r.Ok? <==> ContainsKey(options, ExcludedPluginsKey(projectKey)))
    ensures r.Throws? && ModeAvailable(mode, version) ==> r == Throws(KeyNotFound(ExcludedPluginsKey(projectKey)))
    ensures r.Ok? && mode != Full ==>
      Get(options, ExcludedPluginsKey(projectKey)).Some? && EndsWithPlugins(r.value, Get(options, ExcludedPluginsKey(projectKey)).value, version)
    ensures r.Ok? && mode != Full ==>
      r.value == ModeFlag(mode, version) + PluginFlags(Get(options, ExcludedPluginsKey(projectKey)).value, version)
  {
    var excluded := ExcludedPluginsKey(projectKey);
    if version >= 4.0 then
      match mode
      case Full => Ok("")
      case Incremental => Excluding(options, excluded, IncrementalModeFlag, version)
      case Preview => Excluding(options, excluded, PreviewModeFlag, version)
    else if version >= 3.4 then
      match mode
      case Full => Ok("")
      case Incremental => Throws(NotAvailable(NotAvailableMessage))
      case Preview => Excluding(options, excluded, "", version)
    else
      match mode
      case Full => Ok("")
      case Incremental => Throws(NotAvailable(NotAvailableMessage))
      case Preview => Throws(NotAvailable(NotAvailableMessage))
  }

  /**
   * The flag naming the analysis mode: from 4.0 on, `sonar.analysis.mode`
   * set to incremental or preview; below 4.0 the dry-run flags alone say it.
   */
  function ModeFlag(mode: AnalysisMode, version: real): string {
    if version >= 4.0 then (if mode == Incremental then IncrementalModeFlag else PreviewModeFlag) else ""
  }

  /**
   * The mode part of the command line for each mode and server version that
   * has one: the analysis-mode flag and then the excluded plugins from 4.0
   * on, the dry-run flags around the excluded plugins from 3.4.
   */
  lemma ModeArgumentsText(options: Dict, projectKey: string, mode: AnalysisMode, version: real)
    requires ContainsKey(options, ExcludedPluginsKey(projectKey))
    ensures var plugins := Get(options, ExcludedPluginsKey(projectKey)).value;
      && (version >= 4.0 && mode == Incremental ==>
            ModeArguments(options, projectKey, mode, version) == Ok(IncrementalModeFlag + PreviewExcludeFlag + plugins))
      && (version >= 4.0 && mode == Preview ==>
            ModeArguments(options, projectKey, mode, version) == Ok(PreviewModeFlag + PreviewExcludeFlag + plugins))
      && (3.4 <= version < 4.0 && mode == Preview ==>
            ModeArguments(options, projectKey, mode, version) == Ok(DryRunExcludeFlag + plugins + DryRunFlag))
  {
    var plugins := Get(options, ExcludedPluginsKey(projectKey)).value;
    if ModeAvailable(mode, version) && mode != Full {
      if version >= 4.0 {
        Reassociate(ModeFlag(mode, version), PreviewExcludeFlag, plugins);
      } else {
        assert "" + (DryRunExcludeFlag + plugins + DryRunFlag) == DryRunExcludeFlag + plugins + DryRunFlag;
      }
    }
  }

  /** The excluded-plugins flags for the server version, around the option's value. */
  function PluginFlags(plugins: string, version: real): string {
    if version >= 4.0 then PreviewExcludeFlag + plugins else DryRunExcludeFlag + plugins + DryRunFlag
  }

  /** The mode's own flag followed by the excluded plugins read from the options. */
  function Excluding(options: Dict, excluded: string, modeFlag: string, version: real): (r: Result<string>)
    ensures r.Ok? <==> ContainsKey(options, excluded)
    ensures r.Throws? ==> r == Throws(KeyNotFound(excluded))
    ensures r.Ok? ==> Get(options, excluded).Some? && EndsWithPlugins(r.value, Get(options, excluded).value, version)
    ensures r.Ok? ==> StartsWith(r.value, modeFlag)
  {
    match Index(options, excluded)
    case Throws(e) => Throws(e)
    case Ok(plugins) =>
      Affixes(modeFlag, PluginFlags(plugins, version));
      Ok(modeFlag + PluginFlags(plugins, version))
  }

  /**
   * The excluded plugins are passed as the last flag from 4.0 on
   * (`sonar.preview.excludePlugins`), and before `-Dsonar.dryRun=true` below it.
   */
  predicate EndsWithPlugins(flags: string, plugins: string, version: real) {
    EndsWith(flags, PluginFlags(plugins, version))
  }

  /** The ` -Dk=v` flags of the options `prefix + k`, in option order. */
  function RunnerFlags(options: Dict, prefix: string): string
    requires |prefix| > 0
    decreases |options|
  {
    if |options| == 0 then ""
    else RunnerFlags(options[..|options| - 1], prefix) + OptionFlag(options[|options| - 1], prefix)
  }

  /** The flag of one option: ` -Dname=value` for an option `prefix + name`, nothing otherwise. */
  function OptionFlag(option: Entry, prefix: string): string
    requires |prefix| > 0
  {
    if StartsWith(option.key, prefix) then " -D" + ReplaceAll(option.key, prefix, "") + "=" + option.value else ""
  }

  lemma RunnerFlagsStep(options: Dict, prefix: string, i: nat)
    requires |prefix| > 0 && i < |options|
    ensures RunnerFlags(options[..i + 1], prefix) == RunnerFlags(options[..i], prefix) + OptionFlag(options[i], prefix)
  {
    assert options[..i + 1][..i] == options[..i];
  }

  /** One step of the flags loop: a prefixed option appends its flag, any other leaves the text as it is. */
  lemma AppendedFlag(head: string, options: Dict, prefix: string, i: nat, args: string)
    requires |prefix| > 0 && i < |options|
    requires args == head + RunnerFlags(options[..i], prefix)
    ensures StartsWith(options[i].key, prefix) ==> args + OptionFlag(options[i], prefix) == head + RunnerFlags(options[..i + 1], prefix)
    ensures !StartsWith(options[i].key, prefix) ==> args == head + RunnerFlags(options[..i + 1], prefix)
  {
    RunnerFlagsStep(options, prefix, i);
    Reassociate(head, RunnerFlags(options[..i], prefix), OptionFlag(options[i], prefix));
  }

  /** The flag of one runner property. */
  function Flag(p: CxxLocalExtension.SonarQubeProperty): string {
    " -D" + p.key + "=" + p.value
  }

  function Flags(properties: seq<CxxLocalExtension.SonarQubeProperty>): string
    decreases |properties|
  {
    if |properties| == 0 then "" else Flags(properties[..|properties| - 1]) + Flag(properties[|properties| - 1])
  }

  /**
   * The runner receives exactly the properties the local extension reports
   * for the project, one flag each, in the same order.
   */
  lemma {:induction false} RunnerFlagsAreProperties(options: Dict, projectKey: string)
    ensures RunnerFlags(options, CxxLocalExtension.RunnerPrefix(projectKey)) == Flags(CxxLocalExtension.RunnerProperties(options, projectKey))
    decreases |options|
  {
    var prefix := CxxLocalExtension.RunnerPrefix(projectKey);
    if |options| > 0 {
      var init := options[..|options| - 1];
      RunnerFlagsAreProperties(init, projectKey);
      var f := CxxLocalExtension.RunnerProperty(prefix);
      var before := CxxLocalExtension.RunnerProperties(init, projectKey);
      var props := CxxLocalExtension.RunnerProperties(options, projectKey);
      if f(options[|options| - 1]).Some? {
        assert props == before + [f(options[|options| - 1]).value];
        assert props[..|props| - 1] == before;
      } else {
        assert props == before;
      }
    }
  }

  /** The argument string: credentials, the mode's flags, then the runner properties. */
  function Arguments(options: Dict, projectKey: string, mode: AnalysisMode, conf: Connection, version: real): (r: Result<string>)
    ensures r.Ok? <==> ModeArguments(options, projectKey, mode, version).Ok?
    ensures r.Ok? ==> StartsWith(r.value, Credentials(conf))
    ensures r.Ok? ==> EndsWith(r.value, RunnerFlags(options, CxxLocalExtension.RunnerPrefix(projectKey)))
    ensures r.Throws? ==> r == ModeArguments(options, projectKey, mode, version)
  {
    match ModeArguments(options, projectKey, mode, version)
    case Throws(e) => Throws(e)
    case Ok(flags) =>
      Ok(Assemble(Credentials(conf), flags, RunnerFlags(options, CxxLocalExtension.RunnerPrefix(projectKey))))
  }

  /** Three parts of the argument string, in order. */
  function Assemble(head: string, flags: string, tail: string): (r: string)
    ensures StartsWith(r, head) && EndsWith(r, tail)
  {
    Affixes(head, flags + tail);
    Affixes(head + flags, tail);
    assert head + (flags + tail) == head + flags + tail;
    head + flags + tail
  }

  /** A full analysis never fails, on every server version. */
  lemma FullAlwaysSucceeds(options: Dict, projectKey: string, conf: Connection, version: real)
    ensures Arguments(options, projectKey, Full, conf, version)
      == Ok(Credentials(conf) + RunnerFlags(options, CxxLocalExtension.RunnerPrefix(projectKey)))
  {
    assert Credentials(conf) + "" == Credentials(conf);
  }

  /** The argument builder: the mode's flags chosen by version, then a loop over the options. */
  method GetArguments(options: Dict, projectKey: string, mode: AnalysisMode, conf: Connection, version: real) returns (r: Result<string>)
    ensures r == Arguments(options, projectKey, mode, conf, version)
  {
    var flags := ModeArguments(options, projectKey, mode, version);
    if flags.Throws? {
      return Throws(flags.exception);
    }
    var args := AppendRunnerFlags(Credentials(conf) + flags.value, options, CxxLocalExtension.RunnerPrefix(projectKey));
    ArgumentsOfFlags(options, projectKey, mode, conf, version);
    return Ok(args);
  }

  /** The loop over the options that appends ` -Dname=value` for each runner property. */
  method AppendRunnerFlags(head: string, options: Dict, prefix: string) returns (args: string)
    requires |prefix| > 0
    ensures args == head + RunnerFlags(options, prefix)
  {
    args := head;
    for i := 0 to |options|
      invariant args == head + RunnerFlags(options[..i], prefix)
    {
      var option := options[i];
      AppendedFlag(head, options, prefix, i, args);
      if StartsWith(option.key, prefix) {
        args := args + OptionFlag(option, prefix);
      }
    }
    assert options[..|options|] == options;
  }

  lemma ArgumentsOfFlags(options: Dict, projectKey: string, mode: AnalysisMode, conf: Connection, version: real)
    requires ModeArguments(options, projectKey, mode, version).Ok?
    ensures Arguments(options, projectKey, mode, conf, version)
      == Ok(Credentials(conf) + ModeArguments(options, projectKey, mode, version).value + RunnerFlags(options, CxxLocalExtension.RunnerPrefix(projectKey)))
  {
  }

  // ---------------------------------------------------------------------------
  // Recognising the runner's log line for a file it indexes.
  // ---------------------------------------------------------------------------

  const DebugMarker := "[DEBUG]"
  const IndexMarker := "Populating index from"

  /**
   * The file a runner log line announces: none unless the line holds both
   * markers; otherwise the second non-empty piece of the line cut at the
   * index marker, and an IndexOutOfRangeException when there is none.
   */
  function FileToAnalyse(data: string): (r: Result<Option<string>>)
    ensures r == Ok(None) <==> !(Contains(data, DebugMarker) && Contains(data, IndexMarker))
    ensures r.Throws? ==> r.exception == IndexOutOfRange
    ensures r.Ok? && r.value.Some? ==> r.value.value != ""
  {
    if Contains(data, DebugMarker) && Contains(data, IndexMarker) then
      var pieces := RemoveEmpty(SplitOnAny(data, [IndexMarker]));
      if |pieces| < 2 then Throws(IndexOutOfRange) else Ok(Some(pieces[1]))
    else Ok(None)
  }

  /** Text ahead of a substring keeps it. */
  lemma {:induction false} ContainsInPrefix(a: string, b: string, part: string)
    requires Contains(a, part)
    ensures Contains(a + b, part)
    decreases |a|
  {
    if StartsWith(a, part) {
      assert (a + b)[..|part|] == a[..|part|];
    } else {
      assert (a + b)[1..] == a[1..] + b;
      ContainsInPrefix(a[1..], b, part);
    }
  }

  /**
   * A line `head` + marker + `name`, where the head carries the debug marker
   * and neither part contains the index marker, announces `name`.
   */
  lemma FileToAnalyseOfIndexLine(head: string, name: string)
    requires Contains(head, DebugMarker)
    requires name != "" && !Contains(head, IndexMarker) && !Contains(name, IndexMarker)
    ensures FileToAnalyse(head + IndexMarker + name) == Ok(Some(name))
  {
    var line := head + IndexMarker + name;
    ContainsInPrefix(head, IndexMarker + name, DebugMarker);
    assert line == head + (IndexMarker + name);
    assert line[|head|..|head| + |IndexMarker|] == IndexMarker;
    ContainsAt(line, IndexMarker, |head|);
    IndexLineSplits(head, name);
    assert head != "";
    assert RemoveEmpty([head, name]) == [head, name] by {
      assert [head, name][1..] == [name];
      assert [name][1..] == [];
    }
  }

  /** The first letter of the index marker occurs in it only once. */
  lemma IndexMarkerLeadUnique()
    ensures forall d :: 0 < d < |IndexMarker| ==> IndexMarker[d] != IndexMarker[0]
  {
  }

  /** Such a line is cut into its head and its name. */
  lemma IndexLineSplits(head: string, name: string)
    requires !Contains(head, IndexMarker) && !Contains(name, IndexMarker)
    ensures SplitOnAny(head + IndexMarker + name, [IndexMarker]) == [head, name]
  {
    var line := head + IndexMarker + name;
    assert line[|head|..|head| + |IndexMarker|] == IndexMarker;
    forall i | 0 <= i < |head|
      ensures !StartsWith(line[i..], IndexMarker)
    {
      NoMarkerFrom(head, name, i);
    }
    assert line[|head| + |IndexMarker|..] == name;
    SplitOnFirst(line, IndexMarker, |head|, name);
    assert line[..|head|] == head;
    SplitOnAbsent(name, IndexMarker);
  }

  /**
   * No occurrence of the marker starts inside the head: one that ends in the
   * head would be in the head, and one that reaches past it would meet the
   * marker's first letter at a later position of the marker.
   */
  lemma NoMarkerFrom(head: string, name: string, i: nat)
    requires !Contains(head, IndexMarker) && i < |head|
    ensures !StartsWith((head + IndexMarker + name)[i..], IndexMarker)
  {
    IndexMarkerLeadUnique();
    NoSelfOverlapFrom(head, IndexMarker, name, i);
  }

  /** The same for any marker whose first letter does not recur in it. */
  lemma NoSelfOverlapFrom(head: string, marker: string, name: string, i: nat)
    requires |marker| > 0 && forall d :: 0 < d < |marker| ==> marker[d] != marker[0]
    requires !Contains(head, marker) && i < |head|
    ensures !StartsWith((head + marker + name)[i..], marker)
  {
    var line := head + marker + name;
    var m := |marker|;
    if i + m <= |head| {
      NotContainedAt(head, marker, i);
      assert line[i..][..m] == head[i..i + m];
    } else if m <= |line[i..]| {
      var d := |head| - i;
      assert line[i..][d] == marker[0];
      assert line[i..][..m][d] != marker[d];
    }
  }

  // ---------------------------------------------------------------------------
  // The analysis of one file.
  // ---------------------------------------------------------------------------

  /** The buffered output lines a sensor delivered to the callback, with the sensor's key. */
  datatype SensorOutput = SensorOutput(key: string, lines: seq<string>)

  /**
   * What the environment supplies for one analysed file: the output of each
   * sensor whose launch succeeded, in the order of the sensors dictionary;
   * the file's resource key as the plugin computes it; and what fetching
   * the server source and diffing against it yielded.
   */
  datatype FileRun = FileRun(outputs: seq<SensorOutput>, componentKey: Result<string>, outcome: DiffOutcome)

  /** The profile's answer for a rule key: the rule's severity, None for null. */
  type RuleLookup = string -> Result<Option<string>>

  /**
   * The callback's handling of one issue: the profile is asked first; an
   * enabled rule gives its severity and the file's resource key.
   */
  function Admit(issue: Issue, ruleInProfile: RuleLookup, componentKey: Result<string>): (r: Result<Option<Issue>>)
    ensures ruleInProfile(issue.rule) == Ok(None) ==> r == Ok(None)
    ensures r.Ok? && r.value.Some? ==>
      && ruleInProfile(issue.rule) == Ok(r.value.value.severity)
      && r.value.value.severity.Some?
      && componentKey == Ok(r.value.value.component)
      && r.value.value == issue.(severity := r.value.value.severity, component := r.value.value.component)
  {
    match ruleInProfile(issue.rule)
    case Throws(e) => Throws(e)
    case Ok(None) => Ok(None)
    case Ok(Some(severity)) =>
      match componentKey
      case Throws(e) => Throws(e)
      case Ok(component) => Ok(Some(issue.(severity := Some(severity), component := component)))
  }

  function AdmitIn(ruleInProfile: RuleLookup, componentKey: Result<string>): Issue -> Result<Option<Issue>> {
    (issue: Issue) => Admit(issue, ruleInProfile, componentKey)
  }

  /** What one callback adds: nothing if the sensor throws, else the issues admitted before any exception. */
  function CallbackIssues(output: SensorOutput, tools: CxxLocalExtension.Tools, ruleInProfile: RuleLookup, componentKey: Result<string>): seq<Issue> {
    match CxxLocalExtension.SensorViolations(output.key, output.lines, tools)
    case Throws(_) => []
    case Ok(issues) => UntilThrow(issues, AdmitIn(ruleInProfile, componentKey))
  }

  /**
   * The loop over the sensor's issues: each is looked up in the profile and
   * kept when its rule is enabled, until a lookup or the resource key throws.
   */
  method AdmitAll(issuesInTool: seq<Issue>, ruleInProfile: RuleLookup, componentKey: Result<string>) returns (collected: seq<Issue>)
    ensures collected == UntilThrow(issuesInTool, AdmitIn(ruleInProfile, componentKey))
  {
    var f := AdmitIn(ruleInProfile, componentKey);
    collected := [];
    var i := 0;
    while i < |issuesInTool|
      invariant 0 <= i <= |issuesInTool|
      invariant forall j :: 0 <= j < i ==> f(issuesInTool[j]).Ok?
      invariant collected == FilterMap(issuesInTool[..i], Added(f))
    {
      var admitted := Admit(issuesInTool[i], ruleInProfile, componentKey);
      if admitted.Throws? {
        break;
      }
      UntilThrowStep(issuesInTool, f, i);
      if admitted.value.Some? {
        collected := collected + [admitted.value.value];
      }
      i := i + 1;
    }
    UntilThrowAt(issuesInTool, f, i);
  }

  /** What all callbacks of a file add, in sensor order. */
  function FileIssues(outputs: seq<SensorOutput>, tools: CxxLocalExtension.Tools, ruleInProfile: RuleLookup, componentKey: Result<string>): seq<Issue>
    decreases |outputs|
  {
    if |outputs| == 0 then []
    else
      var last := outputs[|outputs| - 1];
      FileIssues(outputs[..|outputs| - 1], tools, ruleInProfile, componentKey) + CallbackIssues(last, tools, ruleInProfile, componentKey)
  }

  /** Every issue the callback adds carries the severity of an enabled rule and the file's key. */
  lemma CallbackIssueEnabled(output: SensorOutput, tools: CxxLocalExtension.Tools, ruleInProfile: RuleLookup, componentKey: Result<string>, x: Issue)
    requires x in CallbackIssues(output, tools, ruleInProfile, componentKey)
    ensures x.severity.Some? && ruleInProfile(x.rule) == Ok(x.severity)
    ensures componentKey == Ok(x.component)
  {
    var issues := CxxLocalExtension.SensorViolations(output.key, output.lines, tools).value;
    var f := AdmitIn(ruleInProfile, componentKey);
    UntilThrowMember(issues, f, x);
    var i :| 0 <= i < FirstThrow(issues, f) && f(issues[i]) == Ok(Some(x));
  }

  /** Every issue of a file's analysis comes from one of its callbacks. */
  lemma {:induction false} FileIssueEnabled(outputs: seq<SensorOutput>, tools: CxxLocalExtension.Tools, ruleInProfile: RuleLookup, componentKey: Result<string>, x: Issue)
    requires x in FileIssues(outputs, tools, ruleInProfile, componentKey)
    ensures x.severity.Some? && ruleInProfile(x.rule) == Ok(x.severity)
    ensures componentKey == Ok(x.component)
    decreases |outputs|
  {
    var init := outputs[..|outputs| - 1];
    if x in FileIssues(init, tools, ruleInProfile, componentKey) {
      FileIssueEnabled(init, tools, ruleInProfile, componentKey, x);
    } else {
      CallbackIssueEnabled(outputs[|outputs| - 1], tools, ruleInProfile, componentKey, x);
    }
  }

  /** A rule lookup that never throws lets every issue of the tool be considered. */
  lemma CallbackWithoutExceptions(output: SensorOutput, tools: CxxLocalExtension.Tools, ruleInProfile: RuleLookup, componentKey: Result<string>, issues: seq<Issue>)
    requires CxxLocalExtension.SensorViolations(output.key, output.lines, tools) == Ok(issues)
    requires componentKey.Ok? && forall i :: 0 <= i < |issues| ==> ruleInProfile(issues[i].rule).Ok?
    ensures CallbackIssues(output, tools, ruleInProfile, componentKey) == FilterMap(issues, Added(AdmitIn(ruleInProfile, componentKey)))
  {
    UntilThrowTotal(issues, AdmitIn(ruleInProfile, componentKey));
  }

  /**
   * The analyser's state: the mode of the analysis, the sensors' tools and
   * profile, the file being analysed, the issues its callbacks collected and
   * the issues of the whole analysis.
   */
  class Analyser {
    const mode: AnalysisMode
    const tools: CxxLocalExtension.Tools
    const ruleInProfile: RuleLookup
    var fileBeingAnalysed: string
    var issuesInFile: seq<Issue>
    var issues: seq<Issue>

    constructor (mode: AnalysisMode, tools: CxxLocalExtension.Tools, ruleInProfile: RuleLookup)
      ensures this.mode == mode && this.tools == tools && this.ruleInProfile == ruleInProfile
      ensures fileBeingAnalysed == "" && issuesInFile == [] && issues == []
    {
      this.mode := mode;
      this.tools := tools;
      this.ruleInProfile := ruleInProfile;
      fileBeingAnalysed := "";
      issuesInFile := [];
      issues := [];
    }

    /**
     * CallbackDisplayLocalAnalysisMenuItem: the sensor's issues whose rule is
     * enabled are added to the file's issues, until an exception ends the loop.
     */
    method Callback(output: SensorOutput, componentKey: Result<string>)
      modifies this`issuesInFile
      ensures issuesInFile == old(issuesInFile) + CallbackIssues(output, tools, ruleInProfile, componentKey)
      ensures issues == old(issues) && fileBeingAnalysed == old(fileBeingAnalysed)
    {
      var found := CxxLocalExtension.ViolationsOf(output.key, output.lines, tools);
      if found.Throws? {
        assert CallbackIssues(output, tools, ruleInProfile, componentKey) == [];
        return;
      }
      var collected := AdmitAll(found.value, ruleInProfile, componentKey);
      issuesInFile := issuesInFile + collected;
    }

    /**
     * ExecuteAnalysisOnFile: every sensor's callback runs on the file; an
     * empty result adds nothing; otherwise the file's issues are appended,
     * restricted to the changed lines in incremental mode when the diff
     * succeeds, and all of them when it cannot be computed.
     */
    method ExecuteAnalysisOnFile(fileName: string, run: FileRun)
      modifies this
      ensures fileBeingAnalysed == fileName
      ensures issuesInFile == FileIssues(run.outputs, tools, ruleInProfile, run.componentKey)
      ensures issues == old(issues) + MergeTail(issuesInFile, mode == Incremental, run.outcome)
    {
      fileBeingAnalysed := fileName;
      issuesInFile := [];
      for k := 0 to |run.outputs|
        invariant issuesInFile == FileIssues(run.outputs[..k], tools, ruleInProfile, run.componentKey)
        invariant fileBeingAnalysed == fileName && issues == old(issues)
      {
        Callback(run.outputs[k], run.componentKey);
        assert run.outputs[..k + 1][..k] == run.outputs[..k];
      }
      assert run.outputs[..|run.outputs|] == run.outputs;
      if |issuesInFile| == 0 {
        return;
      }
      if mode == Incremental {
        match run.outcome
        case Diffed(report) =>
          issues := issues + IssuesInModifiedLinesOnly(issuesInFile, report);
        case NoReference =>
          issues := issues + issuesInFile;
        case DiffThrew =>
          issues := issues + issuesInFile;
      } else {
        issues := issues + issuesInFile;
      }
    }

    /**
     * ProcessOutputDataReceived and LaunchFileAnalyser: outside a full
     * analysis, a log line announcing an existing file runs the analysis of
     * that file. `fileExists` stands for File.Exists and `runs` for what the
     * sensors and the server deliver for each file.
     */
    method ProcessOutputDataReceived(data: Option<string>, fileExists: string -> bool, runs: string -> FileRun)
      returns (r: Result<Option<string>>)
      modifies this
      ensures data == None || mode == Full ==> r == Ok(None)
      ensures data.Some? && mode != Full ==> r == FileToAnalyse(data.value)
      ensures !(r.Ok? && r.value.Some? && fileExists(r.value.value)) ==>
        issues == old(issues) && issuesInFile == old(issuesInFile) && fileBeingAnalysed == old(fileBeingAnalysed)
      ensures r.Ok? && r.value.Some? && fileExists(r.value.value) ==>
        && fileBeingAnalysed == r.value.value
        && issuesInFile == FileIssues(runs(r.value.value).outputs, tools, ruleInProfile, runs(r.value.value).componentKey)
        && issues == old(issues) + MergeTail(issuesInFile, mode == Incremental, runs(r.value.value).outcome)
    {
      if data == None || mode == Full {
        return Ok(None);
      }
      r := FileToAnalyse(data.value);
      if r.Ok? && r.value.Some? && fileExists(r.value.value) {
        ExecuteAnalysisOnFile(r.value.value, runs(r.value.value));
      }
    }
  }
}
