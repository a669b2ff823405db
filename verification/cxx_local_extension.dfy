/**
 * The local extension: it dispatches a tool's output lines to the sensor of
 * that tool, keeps the issues of the analysed file that the quality profile
 * enables, and appends them to the caller's list through the fail-open
 * changed-lines filter. It also selects the supported issues of a report and
 * the runner properties of a project.
 */
module CxxLocalExtension {
  import opened Wrappers
  import opened Strings
  import opened Seqs
  import opened Issues
  import opened Dictionaries
  import opened DiffFilter
  import CxxPlugin
  import CxxExternalSensor
  import PcLintSensor
  import VeraSensor
  import CppCheckSensor
  import RatsSensor

  // ---------------------------------------------------------------------------
  // The sensors dictionary and its dispatch.
  // ---------------------------------------------------------------------------

  /**
   * What the sensors need beyond the output lines: the custom key the
   * external sensor was built with and the two XML decoders.
   */
  datatype Tools = Tools(otherKey: string, cppCheckDecoder: CppCheckSensor.Decoder, ratsDecoder: RatsSensor.Decoder)

  /** The keys of the sensors dictionary. */
  predicate IsSensorKey(key: string) {
    || key == CppCheckSensor.SKey
    || key == RatsSensor.SKey
    || key == VeraSensor.SKey
    || key == PcLintSensor.SKey
    || key == CxxExternalSensor.SKey
  }

  /**
   * `sensors[key].GetViolations(lines)`: an unknown key throws
   * KeyNotFoundException; the line sensors never throw; the XML sensors
   * throw when their decoder does.
   */
  function SensorViolations(key: string, lines: seq<string>, tools: Tools): (r: Result<seq<Issue>>)
    ensures !IsSensorKey(key) ==> r == Throws(KeyNotFound(key))
    ensures IsSensorKey(key) && key != CppCheckSensor.SKey && key != RatsSensor.SKey ==> r.Ok? && |r.value| <= |lines|
    ensures key == CppCheckSensor.SKey ==> r == CppCheckSensor.GetViolations(lines, tools.cppCheckDecoder)
    ensures key == RatsSensor.SKey ==> r == RatsSensor.Report(lines, tools.ratsDecoder)
  {
    if key == CppCheckSensor.SKey then CppCheckSensor.GetViolations(lines, tools.cppCheckDecoder)
    else if key == RatsSensor.SKey then RatsSensor.Report(lines, tools.ratsDecoder)
    else if key == VeraSensor.SKey then Ok(FilterMap(lines, VeraSensor.LineParser()))
    else if key == PcLintSensor.SKey then Ok(FilterMap(lines, PcLintSensor.LineParser()))
    else if key == CxxExternalSensor.SKey then Ok(FilterMap(lines, CxxExternalSensor.LineParser(tools.otherKey)))
    else Throws(KeyNotFound(key))
  }

  /** The dispatch as it runs: the GetViolations method of the sensor registered under `key`. */
  method ViolationsOf(key: string, lines: seq<string>, tools: Tools) returns (r: Result<seq<Issue>>)
    ensures r == SensorViolations(key, lines, tools)
  {
    if key == CppCheckSensor.SKey {
      r := CppCheckSensor.GetViolations(lines, tools.cppCheckDecoder);
    } else if key == RatsSensor.SKey {
      r := RatsSensor.GetViolations(lines, tools.ratsDecoder);
    } else if key == VeraSensor.SKey {
      var violations := VeraSensor.GetViolations(lines);
      r := Ok(violations);
    } else if key == PcLintSensor.SKey {
      var violations := PcLintSensor.GetViolations(lines);
      r := Ok(violations);
    } else if key == CxxExternalSensor.SKey {
      var violations := CxxExternalSensor.GetViolations(lines, tools.otherKey);
      r := Ok(violations);
    } else {
      r := Throws(KeyNotFound(key));
    }
  }

  // ---------------------------------------------------------------------------
  // Accepting the issues of the analysed file.
  // ---------------------------------------------------------------------------

  /**
   * The lookups the merge makes, outside the model: the full path of the
   * analysed file, its resource keys (unsafe and safe), and the quality
   * profile's answer for a rule key (the rule's severity, None for null).
   * Each may throw.
   */
  datatype Lookups = Lookups(
    fullPath: Result<string>,
    componentKey: Result<string>,
    componentSafeKey: Result<string>,
    ruleInProfile: string -> Result<Option<string>>)

  /**
   * One issue of the tool: dropped (Ok(None)) when it is about another file
   * or its rule is not enabled, otherwise rewritten to the item's keys and the
   * rule's severity; Throws when a lookup it needs throws.
   */
  function Accept(issue: Issue, look: Lookups): (r: Result<Option<Issue>>)
    ensures look.fullPath.Throws? ==> r.Throws?
    ensures look.fullPath.Ok? && look.fullPath.value != issue.component ==> r == Ok(None)
    ensures r.Ok? && r.value.Some? ==>
      && look.fullPath == Ok(issue.component)
      && look.componentKey == Ok(r.value.value.component)
      && look.componentSafeKey == Ok(r.value.value.componentSafe)
      && look.ruleInProfile(issue.rule) == Ok(r.value.value.severity)
      && r.value.value.severity.Some?
      && r.value.value == issue.(component := r.value.value.component, componentSafe := r.value.value.componentSafe, severity := r.value.value.severity)
  {
    match look.fullPath
    case Throws(e) => Throws(e)
    case Ok(path) =>
      if path != issue.component then Ok(None)
      else
        match look.componentKey
        case Throws(e) => Throws(e)
        case Ok(component) =>
          match look.componentSafeKey
          case Throws(e) => Throws(e)
          case Ok(componentSafe) =>
            match look.ruleInProfile(issue.rule)
            case Throws(e) => Throws(e)
            case Ok(None) => Ok(None)
            case Ok(Some(severity)) => Ok(Some(issue.(component := component, componentSafe := componentSafe, severity := Some(severity))))
  }

  function AcceptIn(look: Lookups): Issue -> Result<Option<Issue>> {
    (issue: Issue) => Accept(issue, look)
  }

  /** The issues accepted before the first exception, in the tool's order. */
  function Accepted(issues: seq<Issue>, look: Lookups): seq<Issue> {
    UntilThrow(issues, AcceptIn(look))
  }

  /**
   * The per-tool list: empty when the sensor throws, otherwise what was
   * accepted before any exception.
   */
  function PerTool(key: string, lines: seq<string>, tools: Tools, look: Lookups): seq<Issue> {
    match SensorViolations(key, lines, tools)
    case Throws(_) => []
    case Ok(issues) => Accepted(issues, look)
  }

  /** `x` is `original`, an issue of the analysed file, with only component, safe component and severity rewritten. */
  predicate IsRewriteOf(original: Issue, look: Lookups, x: Issue) {
    && look.fullPath == Ok(original.component)
    && x == original.(component := x.component, componentSafe := x.componentSafe, severity := x.severity)
  }

  /**
   * Every kept issue names the analysed file by its resource keys and carries
   * the severity of an enabled rule of the profile.
   */
  lemma AcceptedIssue(issues: seq<Issue>, look: Lookups, x: Issue)
    requires x in Accepted(issues, look)
    ensures look.componentKey == Ok(x.component) && look.componentSafeKey == Ok(x.componentSafe)
    ensures x.severity.Some? && look.ruleInProfile(x.rule) == Ok(x.severity)
    ensures exists i :: 0 <= i < |issues| && IsRewriteOf(issues[i], look, x)
  {
    UntilThrowMember(issues, AcceptIn(look), x);
    var i :| 0 <= i < FirstThrow(issues, AcceptIn(look)) && AcceptIn(look)(issues[i]) == Ok(Some(x));
    assert IsRewriteOf(issues[i], look, x);
  }

  /** A full path that cannot be computed leaves nothing to merge. */
  lemma NoFullPathNothingAccepted(issues: seq<Issue>, look: Lookups)
    requires look.fullPath.Throws?
    ensures Accepted(issues, look) == []
  {
    FirstThrowUnique(issues, AcceptIn(look), 0);
  }

  /** Issues of other files are never kept, and never reach a lookup that could throw. */
  lemma OtherFilesNothingAccepted(issues: seq<Issue>, look: Lookups)
    requires look.fullPath.Ok?
    requires forall i :: 0 <= i < |issues| ==> issues[i].component != look.fullPath.value
    ensures Accepted(issues, look) == []
  {
    assert forall i :: 0 <= i < |issues| ==> AcceptIn(look)(issues[i]) == Ok(None);
    UntilThrowTotal(issues, AcceptIn(look));
    if Accepted(issues, look) != [] {
      UntilThrowMember(issues, AcceptIn(look), Accepted(issues, look)[0]);
    }
  }

  /** An unknown sensor key merges nothing. */
  lemma UnknownSensorMergesNothing(key: string, lines: seq<string>, tools: Tools, look: Lookups, modifiedLines: bool, outcome: DiffOutcome)
    requires !IsSensorKey(key)
    ensures MergeTail(PerTool(key, lines, tools, look), modifiedLines, outcome) == []
  {
    MergeTailSubsequence([], modifiedLines, outcome);
  }

  // ---------------------------------------------------------------------------
  // ProcessSensorsIssues
  // ---------------------------------------------------------------------------

  /**
   * Runs the sensor, collects the accepted issues until one throws, then
   * appends them to `issuesToReturn`, restricted to the changed lines only
   * when that is asked for and the diff succeeds. `outcome` is what the
   * reference source and the diff yield.
   */
  method ProcessSensorsIssues(key: string, lines: seq<string>, tools: Tools, look: Lookups,
                              modifiedLines: bool, outcome: DiffOutcome, issuesToReturn: IssueList)
    modifies issuesToReturn
    ensures issuesToReturn.items == old(issuesToReturn.items) + MergeTail(PerTool(key, lines, tools, look), modifiedLines, outcome)
  {
    var issuesPerTool: seq<Issue> := [];
    var found := ViolationsOf(key, lines, tools);
    if found.Ok? {
      issuesPerTool := AcceptAll(found.value, look);
    }
    var tail := issuesPerTool;
    if modifiedLines {
      match outcome
      case Diffed(report) =>
        tail := IssuesInModifiedLinesOnly(issuesPerTool, report);
      case NoReference =>
      case DiffThrew =>
    }
    issuesToReturn.items := issuesToReturn.items + tail;
  }

  /**
   * The loop over the tool's issues: each one is accepted or dropped in turn,
   * and the first exception ends the loop, keeping what was accepted so far.
   */
  method AcceptAll(issuesInTool: seq<Issue>, look: Lookups) returns (issuesPerTool: seq<Issue>)
    ensures issuesPerTool == Accepted(issuesInTool, look)
  {
    issuesPerTool := [];
    var i := 0;
    while i < |issuesInTool|
      invariant 0 <= i <= |issuesInTool|
      invariant forall j :: 0 <= j < i ==> AcceptIn(look)(issuesInTool[j]).Ok?
      invariant issuesPerTool == FilterMap(issuesInTool[..i], Added(AcceptIn(look)))
    {
      var issue := issuesInTool[i];
      var accepted := Accept(issue, look);
      if accepted.Throws? {
        break;
      }
      UntilThrowStep(issuesInTool, AcceptIn(look), i);
      if accepted.value.Some? {
        issuesPerTool := issuesPerTool + [accepted.value.value];
      }
      i := i + 1;
    }
    UntilThrowAt(issuesInTool, AcceptIn(look), i);
  }

  // ---------------------------------------------------------------------------
  // GetSupportedIssues
  // ---------------------------------------------------------------------------

  /** IsIssueSupported: the component has a C or C++ extension. */
  function SupportedOnly(issue: Issue): Option<Issue> {
    if CxxPlugin.IsSupportedFile(issue.component) then Some(issue) else None
  }

  /** The issues of a report whose component is a C or C++ file, in report order. */
  function GetSupportedIssues(inputIssues: seq<Issue>): (r: seq<Issue>)
    ensures |r| <= |inputIssues|
    ensures forall issue :: issue in r <==> issue in inputIssues && CxxPlugin.IsSupportedFile(issue.component)
  {
    var r := FilterMap(inputIssues, SupportedOnly);
    forall issue
      ensures issue in r <==> issue in inputIssues && CxxPlugin.IsSupportedFile(issue.component)
    {
      FilterMapMember(inputIssues, SupportedOnly, issue);
    }
    r
  }

  /** The supported issues keep their relative order: each comes from a later input than the one before. */
  lemma SupportedIssuesInOrder(inputIssues: seq<Issue>)
    ensures exists idx :: IsOriginMap(inputIssues, SupportedOnly, idx)
    ensures GetSupportedIssues(inputIssues) == FilterMap(inputIssues, SupportedOnly)
  {
    FilterMapOrigins(inputIssues, SupportedOnly);
  }

  // ---------------------------------------------------------------------------
  // GetLocalAnalysisParamenters
  // ---------------------------------------------------------------------------

  /** A property handed to the runner. */
  datatype SonarQubeProperty = SonarQubeProperty(key: string, value: string, valueInServer: string)

  /** The option keys of a project's runner properties start with this. */
  function RunnerPrefix(projectKey: string): (prefix: string)
    ensures |prefix| > 0
  {
    projectKey + ".propertyToRunner."
  }

  /** The property of one option, when its key has the prefix; every occurrence of the prefix is deleted from the key. */
  function RunnerProperty(prefix: string): Entry -> Option<SonarQubeProperty>
    requires |prefix| > 0
  {
    (option: Entry) =>
      if StartsWith(option.key, prefix) then Some(SonarQubeProperty(ReplaceAll(option.key, prefix, ""), option.value, option.value))
      else None
  }

  /** The runner properties of a project, in option order. */
  function RunnerProperties(options: Dict, projectKey: string): seq<SonarQubeProperty> {
    FilterMap(options, RunnerProperty(RunnerPrefix(projectKey)))
  }

  /** The loop over the options, adding a property for each key with the prefix. */
  method GetLocalAnalysisParamenters(options: Dict, projectKey: string) returns (collection: seq<SonarQubeProperty>)
    ensures collection == RunnerProperties(options, projectKey)
    ensures |collection| <= |options|
  {
    collection := [];
    var prefix := projectKey + ".propertyToRunner.";
    for i := 0 to |options|
      invariant collection == FilterMap(options[..i], RunnerProperty(prefix))
    {
      var option := options[i];
      FilterMapSnoc(options[..i], option, RunnerProperty(prefix));
      assert options[..i + 1] == options[..i] + [option];
      if StartsWith(option.key, prefix) {
        collection := collection + [SonarQubeProperty(ReplaceAll(option.key, prefix, ""), option.value, option.value)];
      }
    }
    assert options[..|options|] == options;
  }

  /**
   * A property comes from exactly one option whose key has the prefix; its
   * value and value in server are both that option's value.
   */
  lemma RunnerPropertiesMember(options: Dict, projectKey: string, p: SonarQubeProperty)
    ensures p in RunnerProperties(options, projectKey) <==>
      exists i :: 0 <= i < |options| && StartsWith(options[i].key, RunnerPrefix(projectKey))
        && p == SonarQubeProperty(ReplaceAll(options[i].key, RunnerPrefix(projectKey), ""), options[i].value, options[i].value)
  {
    FilterMapMember(options, RunnerProperty(RunnerPrefix(projectKey)), p);
  }

  /** An option `prefix + name` whose name does not repeat the prefix gives the property `name`. */
  lemma RunnerPropertyName(prefix: string, name: string, value: string)
    requires |prefix| > 0 && !Contains(name, prefix)
    ensures RunnerProperty(prefix)(Entry(prefix + name, value)) == Some(SonarQubeProperty(name, value, value))
  {
    assert StartsWith(prefix + name, prefix) by {
      assert (prefix + name)[..|prefix|] == prefix;
    }
    ReplaceAllLeading(prefix, name, "");
    assert ReplaceAll(prefix + name, prefix, "") == name;
  }
}
