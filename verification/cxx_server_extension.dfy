/**
 * The server extension's resource key: the file path made relative to the
 * solution directory, with `/` separators, behind the repository key.
 */
module CxxServerExtension {
  import opened Strings

  /** String.Replace("\\", "/"): every backslash becomes a forward slash. */
  function Slashes(path: string): (r: string)
    ensures |r| == |path| && '\\' !in r
    ensures forall i :: 0 <= i < |path| ==> r[i] == if path[i] == '\\' then '/' else path[i]
  {
    ReplaceCharRemovesAll(path, '\\', "/");
    ReplaceCharPointwise(path, '\\', '/');
    ReplaceAll(path, "\\", "/")
  }

  /**
   * Every occurrence of `solutionPath\` is deleted, then the separators are
   * turned into slashes. A path with no such occurrence only has its
   * separators changed.
   */
  function RelativePath(filePath: string, solutionPath: string): (r: string)
    ensures '\\' !in r
    ensures !Contains(filePath, solutionPath + "\\") ==> r == Slashes(filePath)
  {
    Slashes(ReplaceAll(filePath, solutionPath + "\\", ""))
  }

  /** The key of a file: the repository key, a colon, the relative path. */
  function GetResourceKey(filePath: string, solutionPath: string, repoKey: string): (key: string)
    ensures StartsWith(key, repoKey + ":")
    ensures key[|repoKey| + 1..] == RelativePath(filePath, solutionPath)
    ensures '\\' !in key[|repoKey| + 1..]
  {
    var key := repoKey + ":" + RelativePath(filePath, solutionPath);
    assert key[..|repoKey| + 1] == repoKey + ":";
    key
  }

  /** A file directly below the solution keeps the rest of its path, in slash form. */
  lemma KeyUnderSolution(solutionPath: string, rest: string, repoKey: string)
    requires !Contains(rest, solutionPath + "\\")
    ensures GetResourceKey(solutionPath + "\\" + rest, solutionPath, repoKey) == repoKey + ":" + Slashes(rest)
  {
    ReplaceAllLeading(solutionPath + "\\", rest, "");
    assert solutionPath + "\\" + rest == (solutionPath + "\\") + rest;
  }

  /**
   * An occurrence of `solutionPath\` further into the path is deleted too,
   * provided no earlier one starts before it.
   */
  lemma KeyDeletesInnerOccurrence(head: string, solutionPath: string, rest: string, repoKey: string)
    requires forall i :: 0 <= i < |head| ==> !StartsWith((head + (solutionPath + "\\") + rest)[i..], solutionPath + "\\")
    requires !Contains(rest, solutionPath + "\\")
    ensures GetResourceKey(head + (solutionPath + "\\") + rest, solutionPath, repoKey) == repoKey + ":" + Slashes(head + rest)
  {
    DeleteSingleOccurrence(head, solutionPath + "\\", rest);
  }

  /** A file name without separators in the solution root becomes `repoKey:name`. */
  lemma KeyOfFileInSolutionRoot(solutionPath: string, name: string, repoKey: string)
    requires '\\' !in name
    ensures GetResourceKey(solutionPath + "\\" + name, solutionPath, repoKey) == repoKey + ":" + name
  {
    ContainsChars(name, solutionPath + "\\");
    assert (solutionPath + "\\")[|solutionPath|] == '\\';
    KeyUnderSolution(solutionPath, name, repoKey);
    ContainsChar(name, '\\');
  }
}
