/**
 * The plugin's own decisions: which files and resources it handles,
 * whether it is enabled, and the resource key of a project item.
 */
module CxxPlugin {
  import opened Wrappers
  import opened Strings
  import CxxServerExtension

  /** The plugin key. */
  const Key := "CxxPlugin"

  function GetKey(): (key: string)
    ensures key == "CxxPlugin"
  {
    Key
  }

  // ---------------------------------------------------------------------------
  // IsSupported(string): the C and C++ source and header extensions, compared
  // without regard to case.
  // ---------------------------------------------------------------------------

  const SupportedExtensions: seq<string> := [".cpp", ".cc", ".c", ".h", ".hpp"]

  /**
   * The name ends, ignoring case, with one of the five extensions (tried in
   * this order); such a name is at least two characters long and ends in
   * p, c or h.
   */
  predicate IsSupportedFile(resource: string): (r: bool)
    ensures r ==> |resource| >= 2 && Lower(resource[|resource| - 1]) in {'p', 'c', 'h'}
  {
    exists k :: 0 <= k < |SupportedExtensions| && EndsWithIgnoreCase(resource, SupportedExtensions[k])
  }

  /** Any stem followed by a supported extension is supported. */
  lemma SupportedWithExtension(stem: string, k: nat)
    requires k < |SupportedExtensions|
    ensures IsSupportedFile(stem + SupportedExtensions[k])
  {
    var ext := SupportedExtensions[k];
    assert (stem + ext)[|stem + ext| - |ext|..] == ext;
  }

  /** Names that differ only in the case of their letters are supported alike. */
  lemma SupportedIgnoresCase(a: string, b: string)
    requires EqualsIgnoreCase(a, b)
    ensures IsSupportedFile(a) <==> IsSupportedFile(b)
  {
    forall suffix: string | |suffix| <= |a|
      ensures EndsWithIgnoreCase(a, suffix) <==> EndsWithIgnoreCase(b, suffix)
    {
      var n := |a| - |suffix|;
      assert forall i :: 0 <= i < |suffix| ==> a[n..][i] == a[n + i] && b[n..][i] == b[n + i];
    }
  }

  /** A name whose last letter is not p, c or h (in either case) is not supported. */
  lemma UnsupportedLastLetter(resource: string)
    requires |resource| > 0 && Lower(resource[|resource| - 1]) !in {'p', 'c', 'h'}
    ensures !IsSupportedFile(resource)
  {
    forall k | 0 <= k < |SupportedExtensions|
      ensures !EndsWithIgnoreCase(resource, SupportedExtensions[k])
    {
      var ext := SupportedExtensions[k];
      ExtensionLastLetter(k);
      if |ext| <= |resource| {
        assert resource[|resource| - |ext|..][|ext| - 1] == resource[|resource| - 1];
      }
    }
  }

  /** Every extension ends in p, c or h. */
  lemma ExtensionLastLetter(k: nat)
    requires k < |SupportedExtensions|
    ensures |SupportedExtensions[k]| > 0
    ensures Lower(SupportedExtensions[k][|SupportedExtensions[k]| - 1]) in {'p', 'c', 'h'}
  {
  }

  // ---------------------------------------------------------------------------
  // IsSupported(Resource)
  // ---------------------------------------------------------------------------

  /** A server resource; its language may be missing (null). */
  datatype Resource = Resource(key: string, lang: Option<string>)

  /**
   * No resource is not supported; a resource is supported exactly when its
   * language is `c++`. A missing language throws, since Equals is called on it.
   */
  function IsSupportedResource(resource: Option<Resource>): (r: Result<bool>)
    ensures resource == None ==> r == Ok(false)
    ensures r.Throws? <==> resource.Some? && resource.value.lang == None
    ensures r.Throws? ==> r.exception == NullReference
    ensures r == Ok(true) <==> resource.Some? && resource.value.lang == Some("c++")
  {
    match resource
    case None => Ok(false)
    case Some(res) =>
      match res.lang
      case None => Throws(NullReference)
      case Some(lang) => Ok(lang == "c++")
  }

  // ---------------------------------------------------------------------------
  // The enabled flag stored in the application settings.
  // ---------------------------------------------------------------------------

  /**
   * A missing or empty flag enables the plugin, as does `true` in any case;
   * any other non-empty value, `false` among them, disables it.
   */
  predicate PluginEnabled(flag: Option<string>): (r: bool)
    ensures flag in {None, Some(""), Some("true"), Some("True"), Some("TRUE")} ==> r
    ensures flag == Some("false") || flag == Some("yes") ==> !r
    ensures r && flag.Some? && flag.value != "" ==> |flag.value| == 4
  {
    match flag
    case None => true
    case Some(value) => value == "" || EqualsIgnoreCase(value, "true")
  }

  /** Two flags that differ only in case decide alike. */
  lemma EnabledIgnoresCase(a: string, b: string)
    requires EqualsIgnoreCase(a, b)
    ensures PluginEnabled(Some(a)) <==> PluginEnabled(Some(b))
  {
    if EqualsIgnoreCase(a, "true") {
      assert forall i :: 0 <= i < |b| ==> Lower(b[i]) == Lower(a[i]);
    }
    if EqualsIgnoreCase(b, "true") {
      assert forall i :: 0 <= i < |a| ==> Lower(a[i]) == Lower(b[i]);
    }
  }

  // ---------------------------------------------------------------------------
  // GetResourceKey
  // ---------------------------------------------------------------------------

  /** The fields of a Visual Studio project item the key is built from. */
  datatype ProjectItem = ProjectItem(filePath: string, projectName: Option<string>, projectFilePath: string, solutionPath: string)

  /**
   * The path part of the unsafe key: the slash form of the working directory
   * and a `/` are deleted when a working directory is set, then the result is
   * trimmed. No backslash is introduced.
   */
  function BelowWorkingDir(relative: string, workingDir: Option<string>): (r: string)
    ensures '\\' in r ==> '\\' in relative
  {
    if workingDir == None || workingDir == Some("") then
      TrimKeepsChars(relative, '\\');
      Trim(relative)
    else
      var toReplace := CxxServerExtension.Slashes(workingDir.value) + "/";
      ReplaceAllDeletes(relative, toReplace, '\\');
      TrimKeepsChars(ReplaceAll(relative, toReplace, ""), '\\');
      Trim(ReplaceAll(relative, toReplace, ""))
  }

  /**
   * The key of a project item. `projectDirectory` is the parent directory of
   * the project file and `workingDir` the configured ProjectWorkingDir, both
   * supplied by the caller. Safe generation with a named project gives
   * `projectKey:ProjectName:path-below-the-project-directory`; otherwise
   * the path is made relative to the solution, then to the working
   * directory when one is set, and trimmed.
   */
  function GetResourceKey(item: ProjectItem, projectKey: string, safeGeneration: bool, projectDirectory: string, workingDir: Option<string>): (key: string)
    ensures StartsWith(key, projectKey + ":")
    ensures safeGeneration && item.projectName.Some? ==> StartsWith(key, projectKey + ":" + item.projectName.value + ":")
    ensures !(safeGeneration && item.projectName.Some?) ==> '\\' !in key[|projectKey| + 1..]
  {
    if safeGeneration && item.projectName.Some? then
      var filePath := CxxServerExtension.Slashes(item.filePath);
      var path := CxxServerExtension.Slashes(projectDirectory);
      var file := ReplaceAll(filePath, path + "/", "");
      var head := projectKey + ":" + item.projectName.value + ":";
      assert (head + file)[..|head|] == head;
      assert (head + file)[..|projectKey| + 1] == projectKey + ":";
      head + file
    else
      var rest := BelowWorkingDir(CxxServerExtension.RelativePath(item.filePath, item.solutionPath), workingDir);
      var key := projectKey + ":" + rest;
      assert key[..|projectKey| + 1] == projectKey + ":";
      assert key[|projectKey| + 1..] == rest;
      key
  }

  /**
   * Without a working directory, the key of the unsafe branch is the server
   * extension's key of the same file, trimmed.
   */
  lemma KeyWithoutWorkingDir(item: ProjectItem, projectKey: string, safeGeneration: bool, projectDirectory: string, workingDir: Option<string>)
    requires !(safeGeneration && item.projectName.Some?)
    requires workingDir == None || workingDir == Some("")
    ensures GetResourceKey(item, projectKey, safeGeneration, projectDirectory, workingDir)
      == projectKey + ":" + Trim(CxxServerExtension.GetResourceKey(item.filePath, item.solutionPath, projectKey)[|projectKey| + 1..])
  {
  }

  /** A file of the working directory keeps only the part below it. */
  lemma KeyBelowWorkingDir(item: ProjectItem, projectKey: string, safeGeneration: bool, projectDirectory: string, dir: string, rest: string)
    requires !(safeGeneration && item.projectName.Some?) && dir != ""
    requires CxxServerExtension.RelativePath(item.filePath, item.solutionPath) == CxxServerExtension.Slashes(dir) + "/" + rest
    requires !Contains(rest, CxxServerExtension.Slashes(dir) + "/")
    ensures GetResourceKey(item, projectKey, safeGeneration, projectDirectory, Some(dir)) == projectKey + ":" + Trim(rest)
  {
    var toReplace := CxxServerExtension.Slashes(dir) + "/";
    var relative := CxxServerExtension.RelativePath(item.filePath, item.solutionPath);
    assert relative == toReplace + rest;
    ReplaceAllLeading(toReplace, rest, "");
    assert ReplaceAll(relative, toReplace, "") == rest;
    assert BelowWorkingDir(relative, Some(dir)) == Trim(rest);
  }

  /** Safe generation names a file of the project directory by its path below it. */
  lemma SafeKeyBelowProject(item: ProjectItem, projectKey: string, projectDirectory: string, workingDir: Option<string>, rest: string)
    requires item.projectName.Some?
    requires CxxServerExtension.Slashes(item.filePath) == CxxServerExtension.Slashes(projectDirectory) + "/" + rest
    requires !Contains(rest, CxxServerExtension.Slashes(projectDirectory) + "/")
    ensures GetResourceKey(item, projectKey, true, projectDirectory, workingDir) == projectKey + ":" + item.projectName.value + ":" + rest
  {
    var path := CxxServerExtension.Slashes(projectDirectory) + "/";
    assert path + rest == CxxServerExtension.Slashes(projectDirectory) + "/" + rest;
    ReplaceAllLeading(path, rest, "");
  }
}
