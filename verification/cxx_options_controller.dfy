/**
 * The options controller: the settings of the four tools and of the runner,
 * their dictionary form (GetOptions / SetOptions), the mutually exclusive
 * Maven and SonarRunner choices, and the per-tab defaults of ResetOptions.
 *
 * String settings the controller never assigned are null; they are
 * modelled as the empty string, except PropertiesToRunner, whose null case
 * changes what GetOptions does.
 */
module CxxOptionsController {
  import opened Wrappers
  import opened Strings
  import opened Seqs
  import opened Dictionaries

  const ExcludedPluginsDefault := "devcockpit,pdfreport,report,scmactivity,views,jira,scmstats"

  /** The infix of the option keys that hold properties for the runner. */
  const PropertyToRunner := ".propertyToRunner."

  /** The keys of the tool and Java settings. */
  const VeraExecutableKey := "VeraExecutable"
  const VeraArgumentsKey := "VeraArguments"
  const VeraEnvironmentKey := "VeraEnvironment"
  const RatsExecutableKey := "RatsExecutable"
  const RatsArgumentsKey := "RatsArguments"
  const RatsEnvironmentKey := "RatsEnvironment"
  const CppCheckExecutableKey := "CppCheckExecutable"
  const CppCheckArgumentsKey := "CppCheckArguments"
  const CppCheckEnvironmentKey := "CppCheckEnvironment"
  const CustomExecutableKey := "CustomExecutable"
  const CustomArgumentsKey := "CustomArguments"
  const CustomKeyKey := "CustomKey"
  const CustomEnvironmentKey := "CustomEnvironment"
  const JavaBinaryPathKey := "JavaBinaryPath"

  /** The global keys, in the order GetOptions adds them. */
  const GlobalKeys: seq<string> := [
    VeraExecutableKey, VeraArgumentsKey, VeraEnvironmentKey,
    RatsExecutableKey, RatsArgumentsKey, RatsEnvironmentKey,
    CppCheckExecutableKey, CppCheckArgumentsKey, CppCheckEnvironmentKey,
    CustomExecutableKey, CustomArgumentsKey, CustomKeyKey, CustomEnvironmentKey, JavaBinaryPathKey]

  /** The suffixes of the project keys, after the project key. */
  const IsDebugCheckedSuffix := ".IsDebugChecked"
  const MavenIsCheckedSuffix := ".MavenIsChecked"
  const SonarRunnerIsCheckedSuffix := ".SonarRunnerIsChecked"
  const ExcludedPluginsSuffix := ".ExcludedPlugins"
  const MavenPathSuffix := ".MavenPath"
  const SonarRunnerPathSuffix := ".SonarRunnerPath"

  /** The project suffixes, in the order GetOptions adds them. */
  const ProjectSuffixes: seq<string> := [IsDebugCheckedSuffix, MavenIsCheckedSuffix, SonarRunnerIsCheckedSuffix,
    ExcludedPluginsSuffix, MavenPathSuffix, SonarRunnerPathSuffix]

  /** The separators of the PropertiesToRunner text. */
  const PropertySeparators: seq<string> := ["\r\n", ";"]

  /** The global keys are distinct. */
  lemma KeysDistinct()
    ensures forall i, j :: 0 <= i < j < |GlobalKeys| ==> GlobalKeys[i] != GlobalKeys[j]
  {
  }

  /** No global key holds a dot. */
  lemma KeysWithoutDot()
    ensures forall i :: 0 <= i < |GlobalKeys| ==> '.' !in GlobalKeys[i]
  {
  }

  /** The project suffixes are distinct and start with a dot. */
  lemma SuffixesDistinct()
    ensures forall i, j :: 0 <= i < j < |ProjectSuffixes| ==> ProjectSuffixes[i] != ProjectSuffixes[j]
    ensures forall i :: 0 <= i < |ProjectSuffixes| ==> |ProjectSuffixes[i]| > 0 && ProjectSuffixes[i][0] == '.'
  {
  }

  /** GetOptionIfExists: the value stored under the key, the empty string when there is none. */
  function GetOptionIfExists(options: Dict, key: string): (r: string)
    ensures ContainsKey(options, key) ==> Get(options, key) == Some(r)
    ensures !ContainsKey(options, key) ==> r == ""
  {
    match Get(options, key)
    case Some(value) => value
    case None => ""
  }

  /** The entry GetOptionsStartingWith copies: those whose key starts with the prefix. */
  function KeepIfPrefixed(prefix: string): Entry -> Option<Entry> {
    (e: Entry) => if StartsWith(e.key, prefix) then Some(e) else None
  }

  /** GetOptionsStartingWith: the entries whose key starts with `prefix`, in dictionary order. */
  function GetOptionsStartingWith(options: Dict, prefix: string): (r: Dict)
    ensures |r| <= |options|
  {
    FilterMap(options, KeepIfPrefixed(prefix))
  }

  /** An entry is copied exactly when it is in the options and its key has the prefix. */
  lemma GetOptionsStartingWithMember(options: Dict, prefix: string, e: Entry)
    ensures e in GetOptionsStartingWith(options, prefix) <==> e in options && StartsWith(e.key, prefix)
  {
    FilterMapMember(options, KeepIfPrefixed(prefix), e);
  }

  /** A Boolean as GetOptions writes it. */
  function BoolText(b: bool): string {
    if b then "true" else "false"
  }

  /**
   * The entry of one `k=v` piece of PropertiesToRunner: the text up to the
   * first `=` names the property and the text up to the next `=` is its
   * value. A piece without `=` has no second element (IndexOutOfRange).
   */
  function PropertyEntry(projectKey: string, piece: string): (r: Result<Entry>)
    ensures r.Ok? <==> '=' in piece
    ensures r.Throws? ==> r.exception == IndexOutOfRange
    ensures r.Ok? ==>
      && |Split(piece, '=')| >= 2
      && r.value == Entry(projectKey + PropertyToRunner + Split(piece, '=')[0], Split(piece, '=')[1])
  {
    var elements := Split(piece, '=');
    SplitPieces(piece);
    if |elements| < 2 then Throws(IndexOutOfRange)
    else Ok(Entry(projectKey + PropertyToRunner + elements[0], elements[1]))
  }

  /** Splitting at a character gives two or more pieces exactly when the character occurs. */
  lemma SplitPieces(s: string)
    ensures |Split(s, '=')| >= 2 <==> '=' in s
  {
    SplitJoin(s, '=');
    CountCharIn(s, '=');
  }

  /** The entries of the pieces, each added in turn; a piece without `=` or a repeated key throws. */
  function AddProperties(d: Dict, projectKey: string, pieces: seq<string>): (r: Result<Dict>)
    ensures r.Ok? ==> |r.value| == |d| + |pieces| && r.value[..|d|] == d
    ensures r.Ok? ==> forall i :: 0 <= i < |pieces| ==> PropertyEntry(projectKey, pieces[i]) == Ok(r.value[|d| + i])
    ensures r.Throws? ==> r.exception == IndexOutOfRange || r.exception.DuplicateKey?
    decreases |pieces|
  {
    if |pieces| == 0 then Ok(d)
    else
      var last := pieces[|pieces| - 1];
      match AddProperties(d, projectKey, pieces[..|pieces| - 1])
      case Throws(e) => Throws(e)
      case Ok(before) =>
        match PropertyEntry(projectKey, last)
        case Throws(e) => Throws(e)
        case Ok(entry) =>
          var r := Add(before, entry.key, entry.value);
          assert r.Ok? ==> forall i :: 0 <= i < |pieces| - 1 ==> r.value[|d| + i] == before[|d| + i] && pieces[i] == pieces[..|pieces| - 1][i];
          r
  }

  /** An exception while adding a prefix of the pieces is the exception of the whole. */
  lemma {:induction false} AddPropertiesThrows(d: Dict, projectKey: string, pieces: seq<string>, i: nat)
    requires i <= |pieces| && AddProperties(d, projectKey, pieces[..i]).Throws?
    ensures AddProperties(d, projectKey, pieces) == AddProperties(d, projectKey, pieces[..i])
    decreases |pieces| - i
  {
    if i < |pieces| {
      assert pieces[..i + 1][..i] == pieces[..i];
      AddPropertiesThrows(d, projectKey, pieces, i + 1);
    } else {
      assert pieces[..i] == pieces;
    }
  }

  lemma AddPropertiesStep(d: Dict, projectKey: string, pieces: seq<string>, i: nat)
    requires i < |pieces|
    ensures AddProperties(d, projectKey, pieces[..i + 1]) ==
      match AddProperties(d, projectKey, pieces[..i])
      case Throws(e) => Throws(e)
      case Ok(before) =>
        match PropertyEntry(projectKey, pieces[i])
        case Throws(e) => Throws(e)
        case Ok(entry) => Add(before, entry.key, entry.value)
  {
    assert pieces[..i + 1][..i] == pieces[..i];
  }

  /** The text SetOptions stores for the runner properties: `k=v` and CR LF per entry. */
  function RunnerText(entries: Dict, prefix: string): string
    requires |prefix| > 0
    decreases |entries|
  {
    if |entries| == 0 then ""
    else
      var e := entries[|entries| - 1];
      RunnerText(entries[..|entries| - 1], prefix) + (ReplaceAll(e.key, prefix, "") + "=" + e.value + "\r\n")
  }

  /** The runner properties SetOptions stores for a project: its prefixed entries, prefix removed. */
  function StoredProperties(options: Dict, projectKey: string): string {
    var prefix := projectKey + PropertyToRunner;
    RunnerText(GetOptionsStartingWith(options, prefix), prefix)
  }

  /** GetParent and GetDirectoryName, which are left to the file system layer. */
  datatype PathOps = PathOps(directoryName: string -> string, parent: string -> string)

  /** Path.Combine of a directory and a relative name. */
  function Combine(directory: string, name: string): (r: string)
    ensures EndsWith(r, name)
  {
    var r := if directory == "" then name
      else if directory[|directory| - 1] in {'\\', '/', ':'} then directory + name
      else directory + "\\" + name;
    assert r[|r| - |name|..] == name;
    r
  }

  /**
   * The tool and Java settings, one component per property of the
   * controller; a property setter replaces its component.
   */
  datatype ToolSettings = ToolSettings(
    veraExecutable: string, veraArguments: string, veraEnvironment: string,
    ratsExecutable: string, ratsArguments: string, ratsEnvironment: string,
    cppCheckExecutable: string, cppCheckArguments: string, cppCheckEnvironment: string,
    customExecutable: string, customArguments: string, customKey: string, customEnvironment: string,
    javaBinaryPath: string)

  /** The settings in the order of GlobalKeys. */
  function Values(t: ToolSettings): (values: seq<string>)
    ensures |values| == |GlobalKeys|
  {
    [t.veraExecutable, t.veraArguments, t.veraEnvironment, t.ratsExecutable, t.ratsArguments, t.ratsEnvironment,
     t.cppCheckExecutable, t.cppCheckArguments, t.cppCheckEnvironment,
     t.customExecutable, t.customArguments, t.customKey, t.customEnvironment, t.javaBinaryPath]
  }

  /** The settings with the given values, in the order of GlobalKeys. */
  function FromValues(values: seq<string>): (t: ToolSettings)
    requires |values| == |GlobalKeys|
    ensures Values(t) == values
  {
    var t := ToolSettings(values[0], values[1], values[2], values[3], values[4], values[5], values[6],
      values[7], values[8], values[9], values[10], values[11], values[12], values[13]);
    assert Values(t) == values;
    t
  }

  /** The first part of SetOptions: every setting read back with GetOptionIfExists under its key. */
  function LoadTools(options: Dict): (t: ToolSettings)
    ensures forall k :: 0 <= k < |GlobalKeys| ==> Values(t)[k] == GetOptionIfExists(options, GlobalKeys[k])
  {
    FromValues(seq(|GlobalKeys|, k requires 0 <= k < |GlobalKeys| => GetOptionIfExists(options, GlobalKeys[k])))
  }

  /** Settings written by GetOptions are read back unchanged by SetOptions, whatever follows them. */
  lemma ToolsRoundTrip(t: ToolSettings, more: Dict)
    ensures LoadTools(Entries("", GlobalKeys, Values(t)) + more) == t
  {
    var d := Entries("", GlobalKeys, Values(t));
    KeysDistinct();
    assert UniqueKeys(d) by {
      forall i, j | 0 <= i < j < |d|
        ensures d[i].key != d[j].key
      {
        assert d[i].key == "" + GlobalKeys[i] && "" + GlobalKeys[i] == GlobalKeys[i];
        assert d[j].key == "" + GlobalKeys[j] && "" + GlobalKeys[j] == GlobalKeys[j];
      }
    }
    forall k | 0 <= k < |GlobalKeys|
      ensures GetOptionIfExists(d + more, GlobalKeys[k]) == Values(t)[k]
    {
      assert d[k].key == GlobalKeys[k] by {
        assert "" + GlobalKeys[k] == GlobalKeys[k];
      }
      GetUnique(d, k);
      GetPrefix(d, more, GlobalKeys[k]);
    }
    var r := LoadTools(d + more);
    assert Values(r) == Values(t);
    ValuesInjective(r, t);
  }

  lemma ValuesInjective(a: ToolSettings, b: ToolSettings)
    requires Values(a) == Values(b)
    ensures a == b
  {
    assert Values(a)[0] == Values(b)[0] && Values(a)[1] == Values(b)[1] && Values(a)[2] == Values(b)[2];
    assert Values(a)[3] == Values(b)[3] && Values(a)[4] == Values(b)[4] && Values(a)[5] == Values(b)[5];
    assert Values(a)[6] == Values(b)[6] && Values(a)[7] == Values(b)[7] && Values(a)[8] == Values(b)[8];
    assert Values(a)[9] == Values(b)[9] && Values(a)[10] == Values(b)[10] && Values(a)[11] == Values(b)[11];
    assert Values(a)[12] == Values(b)[12] && Values(a)[13] == Values(b)[13];
  }

  /** No setting assigned: the null strings of a fresh controller. */
  const NoTools := ToolSettings("", "", "", "", "", "", "", "", "", "", "", "", "", "")

  // ---------------------------------------------------------------------------
  // ResetOptions: the defaults of one tab, below the user's source directory
  // `pathDef` (the empty string when the settings file gives none).
  // ---------------------------------------------------------------------------

  /** The tabs ResetOptions knows. */
  const VeraTab := "Vera++"
  const CppCheckTab := "CppCheck"
  const RatsTab := "Rats"
  const RunnerOptionsTab := "RunnerOptions"
  const ExternalSensorTab := "ExternalSensor"

  /** The tabs in the order ResetDefaults resets them. */
  const Tabs: seq<string> := [VeraTab, CppCheckTab, RatsTab, ExternalSensorTab, RunnerOptionsTab]

  /** The install locations below `pathDef`, and the default arguments. */
  const VeraHomeUnder := "\\MSBuild\\Sonar\\apps\\vera++"
  const VeraBinUnder := VeraHomeUnder + "\\bin"
  const VeraExecutableUnder := VeraBinUnder + "\\vera++.exe"
  const VeraDefaultArguments := "-nodup -showrules"
  const VeraRootVariable := "VERA_ROOT="
  const CppCheckExecutableUnder := "\\MSBuild\\Sonar\\apps\\cppcheck\\cppcheck.exe"
  const CppCheckDefaultArguments := "--inline-suppr --enable=all --xml -D__cplusplus -DNT"
  const RatsExecutableUnder := "\\MSBuild\\Sonar\\apps\\rats-2.3\\rats.exe"
  const RatsDefaultArguments := "--xml"
  const PythonExecutableUnder := "\\MSBuild\\Sonar\\apps\\Python27\\python.exe"
  const CpplintScriptUnder := "\\MSBuild\\Sonar\\scripts\\cpplint_mod.py --output=vs7"
  const CpplintKey := "cpplint"
  const SourceDirVariable := "UserSRCDir="
  const MavenPathUnder := "\\MSBuild\\BuildTools\\apache-maven-2.2.1\\bin\\mvn.bat"
  const RunnerPropertiesAfterSource := ";COMMON=Core\\Common;MODEL=Core\\Model;DRAWINGS=Core\\Drawings;TS=Core\\TeklaStructures;ANALYSIS=Core\\Analysis"

  /** The PropertiesToRunner default of the runner tab. */
  function RunnerDefaults(pathDef: string): string {
    "SRCDir=" + pathDef + RunnerPropertiesAfterSource
  }

  /** VERA_ROOT: the lib\vera++ directory beside the parent of the executable's directory. */
  function VeraEnvironmentOf(executable: string, paths: PathOps, previous: string): string {
    var activeDir := paths.directoryName(executable);
    if activeDir == "" then previous
    else VeraRootVariable + Combine(Combine(paths.parent(activeDir), "lib"), "vera++")
  }

  /** The tool settings after ResetOptions on one tab. */
  function ResetTools(t: ToolSettings, tab: string, pathDef: string, paths: PathOps): ToolSettings {
    if tab == VeraTab then
      if pathDef == "" then t.(veraExecutable := "", veraArguments := "")
      else
        var exe := pathDef + VeraExecutableUnder;
        t.(veraExecutable := exe, veraArguments := VeraDefaultArguments,
           veraEnvironment := VeraEnvironmentOf(exe, paths, t.veraEnvironment))
    else if tab == CppCheckTab then
      if pathDef == "" then t.(cppCheckExecutable := "", cppCheckArguments := "")
      else t.(cppCheckExecutable := pathDef + CppCheckExecutableUnder, cppCheckArguments := CppCheckDefaultArguments)
    else if tab == RatsTab then
      if pathDef == "" then t.(ratsExecutable := "", ratsArguments := "")
      else t.(ratsExecutable := pathDef + RatsExecutableUnder, ratsArguments := RatsDefaultArguments)
    else if tab == ExternalSensorTab then
      if pathDef == "" then t.(customExecutable := "", customArguments := "", customKey := "", customEnvironment := "")
      else t.(customExecutable := pathDef + PythonExecutableUnder, customArguments := pathDef + CpplintScriptUnder,
              customKey := CpplintKey, customEnvironment := SourceDirVariable + pathDef)
    else t
  }

  /** The tool settings after ResetDefaults: every tab reset in turn. */
  function ResetAllTools(t: ToolSettings, pathDef: string, paths: PathOps): (r: ToolSettings)
    ensures r.javaBinaryPath == t.javaBinaryPath
    ensures r.cppCheckEnvironment == t.cppCheckEnvironment && r.ratsEnvironment == t.ratsEnvironment
    ensures pathDef == "" ==>
      && r.veraExecutable == "" && r.veraArguments == "" && r.cppCheckExecutable == "" && r.cppCheckArguments == ""
      && r.ratsExecutable == "" && r.ratsArguments == ""
      && r.customExecutable == "" && r.customArguments == "" && r.customKey == "" && r.customEnvironment == ""
      && r.veraEnvironment == t.veraEnvironment
    ensures pathDef != "" ==>
      && r.veraExecutable == pathDef + VeraExecutableUnder && r.veraArguments == VeraDefaultArguments
      && r.cppCheckExecutable == pathDef + CppCheckExecutableUnder && r.cppCheckArguments == CppCheckDefaultArguments
      && r.ratsExecutable == pathDef + RatsExecutableUnder && r.ratsArguments == RatsDefaultArguments
      && r.customExecutable == pathDef + PythonExecutableUnder && r.customKey == CpplintKey
      && r.customArguments == pathDef + CpplintScriptUnder && r.customEnvironment == SourceDirVariable + pathDef
      && r.veraEnvironment == VeraEnvironmentOf(pathDef + VeraExecutableUnder, paths, t.veraEnvironment)
  {
    var vera := ResetTools(t, VeraTab, pathDef, paths);
    var cppCheck := ResetTools(vera, CppCheckTab, pathDef, paths);
    var rats := ResetTools(cppCheck, RatsTab, pathDef, paths);
    ResetTools(rats, ExternalSensorTab, pathDef, paths)
  }

  /** The tab a setting (by its index in GlobalKeys) belongs to; JavaBinaryPath belongs to none. */
  function TabOf(k: nat): string {
    if k < 3 then VeraTab
    else if k < 6 then RatsTab
    else if k < 9 then CppCheckTab
    else if k < 13 then ExternalSensorTab
    else ""
  }

  /** Resetting a tab changes only that tab's settings. */
  lemma ResetKeepsOtherTabs(t: ToolSettings, tab: string, pathDef: string, paths: PathOps)
    ensures forall k :: 0 <= k < |GlobalKeys| && TabOf(k) != tab ==> Values(ResetTools(t, tab, pathDef, paths))[k] == Values(t)[k]
  {
    var r := ResetTools(t, tab, pathDef, paths);
    if tab == VeraTab {
      assert r == t.(veraExecutable := r.veraExecutable, veraArguments := r.veraArguments, veraEnvironment := r.veraEnvironment);
    } else if tab == CppCheckTab {
      assert r == t.(cppCheckExecutable := r.cppCheckExecutable, cppCheckArguments := r.cppCheckArguments);
    } else if tab == RatsTab {
      assert r == t.(ratsExecutable := r.ratsExecutable, ratsArguments := r.ratsArguments);
    } else if tab == ExternalSensorTab {
      assert r == t.(customExecutable := r.customExecutable, customArguments := r.customArguments,
                     customKey := r.customKey, customEnvironment := r.customEnvironment);
    } else {
      assert r == t;
    }
  }

  /**
   * Without a source directory, a tool tab is left with an empty executable
   * and empty arguments; the external sensor's key and environment are
   * emptied too, and the Vera++ environment is kept.
   */
  lemma ResetWithoutSourceDir(t: ToolSettings, tab: string, paths: PathOps)
    ensures tab == VeraTab ==> ResetTools(t, tab, "", paths).veraExecutable == "" && ResetTools(t, tab, "", paths).veraArguments == ""
    ensures tab == CppCheckTab ==> ResetTools(t, tab, "", paths).cppCheckExecutable == "" && ResetTools(t, tab, "", paths).cppCheckArguments == ""
    ensures tab == RatsTab ==> ResetTools(t, tab, "", paths).ratsExecutable == "" && ResetTools(t, tab, "", paths).ratsArguments == ""
    ensures tab == ExternalSensorTab ==> ResetTools(t, tab, "", paths).customExecutable == "" && ResetTools(t, tab, "", paths).customKey == ""
    ensures tab == ExternalSensorTab ==> ResetTools(t, tab, "", paths).customArguments == "" && ResetTools(t, tab, "", paths).customEnvironment == ""
    ensures ResetTools(t, tab, "", paths).veraEnvironment == t.veraEnvironment
  {
  }

  /** With a source directory, each tool tab's executable lies below it. */
  lemma ResetBelowSourceDir(t: ToolSettings, tab: string, pathDef: string, paths: PathOps)
    requires pathDef != ""
    ensures tab == VeraTab ==> StartsWith(ResetTools(t, tab, pathDef, paths).veraExecutable, pathDef)
    ensures tab == CppCheckTab ==> StartsWith(ResetTools(t, tab, pathDef, paths).cppCheckExecutable, pathDef)
    ensures tab == RatsTab ==> StartsWith(ResetTools(t, tab, pathDef, paths).ratsExecutable, pathDef)
    ensures tab == ExternalSensorTab ==> StartsWith(ResetTools(t, tab, pathDef, paths).customExecutable, pathDef)
  {
  }

  /**
   * When the directory and parent operations strip the last path component,
   * VERA_ROOT names the lib\vera++ directory of the vera++ installation.
   */
  lemma VeraRootOfInstall(t: ToolSettings, pathDef: string, paths: PathOps)
    requires pathDef != ""
    requires paths.directoryName(pathDef + VeraExecutableUnder) == pathDef + VeraBinUnder
    requires paths.parent(pathDef + VeraBinUnder) == pathDef + VeraHomeUnder
    ensures ResetTools(t, VeraTab, pathDef, paths).veraEnvironment == VeraRootVariable + (pathDef + VeraHomeUnder + "\\lib\\vera++")
  {
    var home := pathDef + VeraHomeUnder;
    assert home[|home| - 1] == '+';
    var lib := home + "\\lib";
    assert lib[|lib| - 1] == 'b';
    assert Combine(home, "lib") == lib;
    assert Combine(lib, "vera++") == home + "\\lib\\vera++";
  }

  class Controller {
    /** The tool and Java settings. */
    var tools: ToolSettings

    var isDebugChecked: bool
    var mavenIsChecked: bool
    var sonarRunnerIsChecked: bool
    var mavenPath: string
    var sonarRunnerPath: string
    var excludedPlugins: string
    var propertiesToRunner: Option<string>

    /** The key of the associated project, None when there is none. */
    var project: Option<string>

    /** The parameterless constructor: nothing set but the default excluded plugins. */
    constructor ()
      ensures tools == NoTools
      ensures !isDebugChecked && !mavenIsChecked && !sonarRunnerIsChecked
      ensures mavenPath == "" && sonarRunnerPath == "" && propertiesToRunner == None && project == None
      ensures excludedPlugins == ExcludedPluginsDefault
    {
      tools := NoTools;
      isDebugChecked, mavenIsChecked, sonarRunnerIsChecked := false, false, false;
      mavenPath, sonarRunnerPath := "", "";
      excludedPlugins := ExcludedPluginsDefault;
      propertiesToRunner := None;
      project := None;
    }

    /** At most one runner is chosen. */
    predicate Exclusive()
      reads this
    {
      !(mavenIsChecked && sonarRunnerIsChecked)
    }

    /** The project entries, in the order GetOptions adds them. */
    function ProjectValues(): (values: seq<string>)
      reads this
      ensures |values| == |ProjectSuffixes|
    {
      [BoolText(isDebugChecked),
       BoolText(!sonarRunnerIsChecked), BoolText(sonarRunnerIsChecked),
       excludedPlugins, mavenPath, sonarRunnerPath]
    }

    /** What GetOptions returns: the settings, the project's settings, then the runner properties. */
    function Options(): (r: Result<Dict>)
      reads this
      ensures project == None ==> r.Ok? && |r.value| == |GlobalKeys|
      ensures project == None || propertiesToRunner == None ==> r.Ok?
      ensures r.Ok? ==> |r.value| >= |GlobalKeys| && forall k :: 0 <= k < |GlobalKeys| ==> r.value[k] == Entry(GlobalKeys[k], Values(tools)[k])
      ensures r.Ok? && project.Some? ==>
        && |r.value| >= |GlobalKeys| + |ProjectSuffixes|
        && forall k :: 0 <= k < |ProjectSuffixes| ==> r.value[|GlobalKeys| + k] == Entry(project.value + ProjectSuffixes[k], ProjectValues()[k])
      ensures r.Ok? && project.Some? ==> r.value[..|GlobalKeys| + |ProjectSuffixes|] == FixedEntries(tools, project.value, ProjectValues())
      ensures r.Throws? ==> r.exception == IndexOutOfRange || r.exception.DuplicateKey?
    {
      var global := Entries("", GlobalKeys, Values(tools));
      match project
      case None => Ok(global)
      case Some(projectKey) =>
        var fixed := FixedEntries(tools, projectKey, ProjectValues());
        match propertiesToRunner
        case None => Ok(fixed)
        case Some(text) =>
          var r := AddProperties(fixed, projectKey, RemoveEmpty(SplitOnAny(text, PropertySeparators)));
          assert r.Ok? ==> forall k :: 0 <= k < |fixed| ==> r.value[k] == r.value[..|fixed|][k];
          r
    }

    /** GetOptions: the entries added one by one, then the runner properties in a loop. */
    method GetOptions() returns (r: Result<Dict>)
      ensures r == Options()
    {
      var options := Entries("", GlobalKeys, Values(tools));
      if project == None {
        return Ok(options);
      }
      var projectKey := project.value;
      options := options + Entries(projectKey, ProjectSuffixes, ProjectValues());
      if propertiesToRunner == None {
        return Ok(options);
      }
      var fixed := options;
      var properties := RemoveEmpty(SplitOnAny(propertiesToRunner.value, PropertySeparators));
      for i := 0 to |properties|
        invariant AddProperties(fixed, projectKey, properties[..i]) == Ok(options)
      {
        AddPropertiesStep(fixed, projectKey, properties, i);
        var elements := Split(properties[i], '=');
        if |elements| < 2 {
          AddPropertiesThrows(fixed, projectKey, properties, i + 1);
          return Throws(IndexOutOfRange);
        }
        var added := Add(options, projectKey + PropertyToRunner + elements[0], elements[1]);
        if added.Throws? {
          AddPropertiesThrows(fixed, projectKey, properties, i + 1);
          return Throws(added.exception);
        }
        options := added.value;
      }
      assert properties[..|properties|] == properties;
      return Ok(options);
    }

    /** The SonarRunnerIsChecked setter: choosing the runner un-chooses Maven. */
    method SetSonarRunnerIsChecked(value: bool)
      modifies this`sonarRunnerIsChecked, this`mavenIsChecked
      decreases if value then 1 else 0
      ensures sonarRunnerIsChecked == value
      ensures mavenIsChecked == (if value then false else old(mavenIsChecked))
      ensures value || old(Exclusive()) ==> Exclusive()
    {
      sonarRunnerIsChecked := value;
      if value {
        SetMavenIsChecked(false);
      }
    }

    /** The MavenIsChecked setter: choosing Maven un-chooses the runner. */
    method SetMavenIsChecked(value: bool)
      modifies this`sonarRunnerIsChecked, this`mavenIsChecked
      decreases if value then 1 else 0
      ensures mavenIsChecked == value
      ensures sonarRunnerIsChecked == (if value then false else old(sonarRunnerIsChecked))
      ensures value || old(Exclusive()) ==> Exclusive()
    {
      mavenIsChecked := value;
      if value {
        SetSonarRunnerIsChecked(false);
      }
    }

    /**
     * SetOptions: every setting is read back with GetOptionIfExists; with a
     * project, Maven is chosen when its entry is "true" and the runner
     * otherwise, and an empty ExcludedPlugins falls back to the default.
     */
    method SetOptions(options: Dict)
      modifies this
      ensures tools == LoadTools(options)
      ensures project == old(project)
      ensures project == None ==>
        && isDebugChecked == old(isDebugChecked) && mavenIsChecked == old(mavenIsChecked)
        && sonarRunnerIsChecked == old(sonarRunnerIsChecked) && excludedPlugins == old(excludedPlugins)
        && mavenPath == old(mavenPath) && sonarRunnerPath == old(sonarRunnerPath)
        && propertiesToRunner == old(propertiesToRunner)
      ensures project.Some? ==> Loaded(options, project.value)
    {
      tools := LoadTools(options);
      if project == None {
        return;
      }
      SetProjectOptions(options, project.value);
    }

    /** The second part of SetOptions, for an associated project. */
    method SetProjectOptions(options: Dict, projectKey: string)
      modifies this`mavenIsChecked, this`sonarRunnerIsChecked, this`isDebugChecked, this`excludedPlugins,
        this`mavenPath, this`sonarRunnerPath, this`propertiesToRunner
      ensures Loaded(options, projectKey)
    {
      var maven := GetOptionIfExists(options, projectKey + MavenIsCheckedSuffix);
      var debug := GetOptionIfExists(options, projectKey + IsDebugCheckedSuffix);
      var excluded := GetOptionIfExists(options, projectKey + ExcludedPluginsSuffix);
      var props := StoredProperties(options, projectKey);
      if maven == "true" {
        SetMavenIsChecked(true);
      } else {
        SetSonarRunnerIsChecked(true);
      }
      isDebugChecked := debug == "true";
      excludedPlugins := if excluded == "" then ExcludedPluginsDefault else excluded;
      mavenPath := GetOptionIfExists(options, projectKey + MavenPathSuffix);
      sonarRunnerPath := GetOptionIfExists(options, projectKey + SonarRunnerPathSuffix);
      propertiesToRunner := Some(props);
    }

    /**
     * ResetOptions: the named tab gets its defaults below `pathDef`; the
     * runner tab chooses Maven. An unknown tab changes nothing.
     */
    method ResetOptions(optionsTab: string, pathDef: string, paths: PathOps)
      modifies this
      ensures tools == ResetTools(old(tools), optionsTab, pathDef, paths)
      ensures optionsTab == RunnerOptionsTab ==> RunnerReset(pathDef)
      ensures optionsTab != RunnerOptionsTab ==>
        && mavenIsChecked == old(mavenIsChecked) && sonarRunnerIsChecked == old(sonarRunnerIsChecked)
        && mavenPath == old(mavenPath) && excludedPlugins == old(excludedPlugins)
        && propertiesToRunner == old(propertiesToRunner)
      ensures isDebugChecked == old(isDebugChecked) && sonarRunnerPath == old(sonarRunnerPath) && project == old(project)
    {
      ResetToolTab(optionsTab, pathDef, paths);
      if optionsTab == RunnerOptionsTab {
        ResetRunnerTab(pathDef);
      }
    }

    /** The tool tabs of ResetOptions, in the order it tests them. */
    method ResetToolTab(optionsTab: string, pathDef: string, paths: PathOps)
      modifies this`tools
      ensures tools == ResetTools(old(tools), optionsTab, pathDef, paths)
    {
      if optionsTab == VeraTab {
        tools := tools.(veraExecutable := "", veraArguments := "");
        if pathDef != "" {
          var exe := pathDef + VeraExecutableUnder;
          tools := tools.(veraExecutable := exe, veraArguments := VeraDefaultArguments);
          var activeDir := paths.directoryName(exe);
          if activeDir != "" {
            var rootp := paths.parent(activeDir);
            tools := tools.(veraEnvironment := VeraRootVariable + Combine(Combine(rootp, "lib"), "vera++"));
          }
        }
      }
      if optionsTab == CppCheckTab {
        tools := tools.(cppCheckExecutable := "", cppCheckArguments := "");
        if pathDef != "" {
          tools := tools.(cppCheckExecutable := pathDef + CppCheckExecutableUnder, cppCheckArguments := CppCheckDefaultArguments);
        }
      }
      if optionsTab == RatsTab {
        tools := tools.(ratsExecutable := "", ratsArguments := "");
        if pathDef != "" {
          tools := tools.(ratsExecutable := pathDef + RatsExecutableUnder, ratsArguments := RatsDefaultArguments);
        }
      }
      if optionsTab == ExternalSensorTab {
        tools := tools.(customExecutable := "", customArguments := "", customKey := "", customEnvironment := "");
        if pathDef != "" {
          tools := tools.(customExecutable := pathDef + PythonExecutableUnder, customArguments := pathDef + CpplintScriptUnder);
          tools := tools.(customKey := CpplintKey, customEnvironment := SourceDirVariable + pathDef);
        }
      }
    }

    /** The runner tab of ResetOptions. */
    method ResetRunnerTab(pathDef: string)
      modifies this`mavenIsChecked, this`sonarRunnerIsChecked, this`mavenPath, this`excludedPlugins, this`propertiesToRunner
      ensures RunnerReset(pathDef)
    {
      SetMavenIsChecked(true);
      mavenPath := pathDef + MavenPathUnder;
      excludedPlugins := ExcludedPluginsDefault;
      propertiesToRunner := Some(RunnerDefaults(pathDef));
    }

    /** The runner settings after the runner tab is reset: Maven alone is chosen. */
    predicate RunnerReset(pathDef: string)
      reads this
    {
      && mavenIsChecked && !sonarRunnerIsChecked
      && mavenPath == pathDef + MavenPathUnder && excludedPlugins == ExcludedPluginsDefault
      && propertiesToRunner == Some(RunnerDefaults(pathDef))
    }

    /** ResetDefaults: the five tabs in turn, with the same source directory. */
    method ResetDefaults(pathDef: string, paths: PathOps)
      modifies this
      ensures tools == ResetAllTools(old(tools), pathDef, paths)
      ensures RunnerReset(pathDef) && Exclusive()
      ensures isDebugChecked == old(isDebugChecked) && sonarRunnerPath == old(sonarRunnerPath) && project == old(project)
    {
      ResetOptions(VeraTab, pathDef, paths);
      ResetOptions(CppCheckTab, pathDef, paths);
      ResetOptions(RatsTab, pathDef, paths);
      ResetOptions(ExternalSensorTab, pathDef, paths);
      ResetOptions(RunnerOptionsTab, pathDef, paths);
    }

    /** The project settings SetOptions reads from the options. */
    predicate Loaded(options: Dict, projectKey: string)
      reads this
    {
      && mavenIsChecked == (GetOptionIfExists(options, projectKey + MavenIsCheckedSuffix) == "true")
      && sonarRunnerIsChecked == !mavenIsChecked
      && isDebugChecked == (GetOptionIfExists(options, projectKey + IsDebugCheckedSuffix) == "true")
      && excludedPlugins == (if GetOptionIfExists(options, projectKey + ExcludedPluginsSuffix) == "" then ExcludedPluginsDefault
                             else GetOptionIfExists(options, projectKey + ExcludedPluginsSuffix))
      && mavenPath == GetOptionIfExists(options, projectKey + MavenPathSuffix)
      && sonarRunnerPath == GetOptionIfExists(options, projectKey + SonarRunnerPathSuffix)
      && propertiesToRunner == Some(StoredProperties(options, projectKey))
    }
  }

  /** With a project, the MavenIsChecked and SonarRunnerIsChecked entries are opposite truth values. */
  lemma RunnerEntriesOpposite(c: Controller)
    requires c.project.Some? && c.Options().Ok?
    ensures var d := c.Options().value;
      && (d[|GlobalKeys| + 1].value == "true" || d[|GlobalKeys| + 1].value == "false")
      && (d[|GlobalKeys| + 1].value == "true" <==> d[|GlobalKeys| + 2].value == "false")
      && d[|GlobalKeys| + 1].key == c.project.value + MavenIsCheckedSuffix
      && d[|GlobalKeys| + 2].key == c.project.value + SonarRunnerIsCheckedSuffix
  {
    var d := c.Options().value;
    var values := c.ProjectValues();
    assert d[|GlobalKeys| + 1] == Entry(c.project.value + ProjectSuffixes[1], values[1]);
    assert d[|GlobalKeys| + 2] == Entry(c.project.value + ProjectSuffixes[2], values[2]);
  }

  /** SetOptions(GetOptions()) gives back every tool and Java setting. */
  lemma ToolsSurviveRoundTrip(c: Controller)
    requires c.Options().Ok?
    ensures LoadTools(c.Options().value) == c.tools
  {
    var d := c.Options().value;
    var head := Entries("", GlobalKeys, Values(c.tools));
    assert d[..|GlobalKeys|] == head by {
      forall k | 0 <= k < |GlobalKeys|
        ensures d[k] == head[k]
      {
        assert "" + GlobalKeys[k] == GlobalKeys[k];
      }
    }
    assert d == head + d[|GlobalKeys|..];
    ToolsRoundTrip(c.tools, d[|GlobalKeys|..]);
  }

  /**
   * The project entries GetOptions writes are the ones SetOptions finds:
   * no global key and no other project key shadows them.
   */
  lemma ProjectEntrySurvivesRoundTrip(c: Controller, k: nat)
    requires c.project.Some? && c.Options().Ok? && k < |ProjectSuffixes|
    ensures GetOptionIfExists(c.Options().value, c.project.value + ProjectSuffixes[k]) == c.ProjectValues()[k]
  {
    var fixed := FixedEntries(c.tools, c.project.value, c.ProjectValues());
    FixedKeysUnique(c.tools, c.project.value, c.ProjectValues());
    GetFromFixed(c.Options().value, fixed, |GlobalKeys| + k);
  }

  /** A key of a unique-keyed prefix is found with that prefix's value, whatever follows it. */
  lemma GetFromFixed(d: Dict, fixed: Dict, i: nat)
    requires |fixed| <= |d| && d[..|fixed|] == fixed && UniqueKeys(fixed) && i < |fixed|
    ensures GetOptionIfExists(d, fixed[i].key) == fixed[i].value
  {
    GetUnique(fixed, i);
    assert d == fixed + d[|fixed|..];
    GetPrefix(fixed, d[|fixed|..], fixed[i].key);
  }

  /** The entries GetOptions adds before the runner properties. */
  function FixedEntries(t: ToolSettings, projectKey: string, projectValues: seq<string>): (d: Dict)
    requires |projectValues| == |ProjectSuffixes|
    ensures |d| == |GlobalKeys| + |ProjectSuffixes|
    ensures forall k :: 0 <= k < |GlobalKeys| ==> d[k] == Entry(GlobalKeys[k], Values(t)[k])
    ensures forall k :: 0 <= k < |ProjectSuffixes| ==> d[|GlobalKeys| + k] == Entry(projectKey + ProjectSuffixes[k], projectValues[k])
  {
    var d := Entries("", GlobalKeys, Values(t)) + Entries(projectKey, ProjectSuffixes, projectValues);
    assert forall k :: 0 <= k < |GlobalKeys| ==> "" + GlobalKeys[k] == GlobalKeys[k];
    d
  }

  /** No two of those entries share a key. */
  lemma FixedKeysUnique(t: ToolSettings, projectKey: string, projectValues: seq<string>)
    requires |projectValues| == |ProjectSuffixes|
    ensures UniqueKeys(FixedEntries(t, projectKey, projectValues))
  {
    var fixed := FixedEntries(t, projectKey, projectValues);
    forall i, j | 0 <= i < j < |fixed|
      ensures fixed[i].key != fixed[j].key
    {
      FixedKeysDiffer(projectKey, i, j);
    }
  }

  /** The key of the i-th entry GetOptions adds before the runner properties. */
  function FixedKey(projectKey: string, i: nat): string
    requires i < |GlobalKeys| + |ProjectSuffixes|
  {
    if i < |GlobalKeys| then GlobalKeys[i] else projectKey + ProjectSuffixes[i - |GlobalKeys|]
  }

  lemma FixedKeysDiffer(projectKey: string, i: nat, j: nat)
    requires i < j < |GlobalKeys| + |ProjectSuffixes|
    ensures FixedKey(projectKey, i) != FixedKey(projectKey, j)
  {
    var g := |GlobalKeys|;
    if j < g {
      KeysDistinct();
    } else if i < g {
      ProjectKeyNotGlobal(projectKey, i, j - g);
    } else {
      ProjectKeysDistinct(projectKey, i - g, j - g);
    }
  }

  /** A project key holds a dot; a global key does not. */
  lemma ProjectKeyNotGlobal(projectKey: string, i: nat, j: nat)
    requires i < |GlobalKeys| && j < |ProjectSuffixes|
    ensures GlobalKeys[i] != projectKey + ProjectSuffixes[j]
  {
    KeysWithoutDot();
    SuffixesDistinct();
    var key := projectKey + ProjectSuffixes[j];
    assert key[|projectKey|] == '.';
  }

  /** Project keys with distinct suffixes differ. */
  lemma ProjectKeysDistinct(projectKey: string, i: nat, j: nat)
    requires i < j < |ProjectSuffixes|
    ensures projectKey + ProjectSuffixes[i] != projectKey + ProjectSuffixes[j]
  {
    SuffixesDistinct();
    assert (projectKey + ProjectSuffixes[i])[|projectKey|..] == ProjectSuffixes[i];
    assert (projectKey + ProjectSuffixes[j])[|projectKey|..] == ProjectSuffixes[j];
  }

  /**
   * What SetOptions loads from GetOptions of a controller with a project:
   * the flags and paths come back, the runner choice becomes "Maven unless
   * the runner was chosen", and an empty ExcludedPlugins becomes the default.
   */
  lemma ProjectRoundTrip(source: Controller, target: Controller)
    requires source.project.Some? && source.Options().Ok?
    requires target.Loaded(source.Options().value, source.project.value)
    ensures target.isDebugChecked == source.isDebugChecked
    ensures target.sonarRunnerIsChecked == source.sonarRunnerIsChecked
    ensures target.mavenIsChecked == !source.sonarRunnerIsChecked
    ensures target.mavenPath == source.mavenPath && target.sonarRunnerPath == source.sonarRunnerPath
    ensures target.excludedPlugins == if source.excludedPlugins == "" then ExcludedPluginsDefault else source.excludedPlugins
  {
    ProjectValuesAt(source);
    ProjectEntrySurvivesRoundTrip(source, 0);
    ProjectEntrySurvivesRoundTrip(source, 1);
    ProjectEntrySurvivesRoundTrip(source, 3);
    ProjectEntrySurvivesRoundTrip(source, 4);
    ProjectEntrySurvivesRoundTrip(source, 5);
  }

  /** The project values by position, as GetOptions writes them. */
  lemma ProjectValuesAt(c: Controller)
    ensures c.ProjectValues()[0] == BoolText(c.isDebugChecked)
    ensures c.ProjectValues()[1] == BoolText(!c.sonarRunnerIsChecked)
    ensures c.ProjectValues()[3] == c.excludedPlugins
    ensures c.ProjectValues()[4] == c.mavenPath && c.ProjectValues()[5] == c.sonarRunnerPath
  {
  }

  /** The entries `prefix + keys[k] -> values[k]`. */
  function Entries(prefix: string, keys: seq<string>, values: seq<string>): (d: Dict)
    requires |keys| == |values|
    ensures |d| == |keys| && forall k :: 0 <= k < |keys| ==> d[k] == Entry(prefix + keys[k], values[k])
  {
    seq(|keys|, k requires 0 <= k < |keys| => Entry(prefix + keys[k], values[k]))
  }
}
