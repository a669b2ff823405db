/**
 * The RATS sensor. Its XML report is decoded into vulnerability records;
 * each record without a type is flattened into one issue per (file, line)
 * pair it lists.
 */
module RatsSensor {
  import opened Wrappers
  import opened Strings
  import opened Issues
  import opened Dictionaries
  import opened Seqs

  /** The repository key, which is also the sensor's key. */
  const SKey := "rats"

  /** A file of a record with the lines it flags. */
  datatype RatsFile = RatsFile(name: string, lineIds: seq<int>)

  /** One `<vulnerability>` record; None stands for an element the report leaves out (null). */
  datatype Vulnerability = Vulnerability(severity: Option<string>, kind: Option<string>, message: string, files: seq<RatsFile>)

  /** The XML deserializer, outside the model; Throws is the exception it raises. */
  type Decoder = string -> Result<seq<Vulnerability>>

  /** string.IsNullOrEmpty on the record's type. */
  predicate Untyped(v: Vulnerability) {
    v.kind == None || v.kind == Some("")
  }

  /** The type as string concatenation reads it: null reads as empty. */
  function KindText(v: Vulnerability): string {
    match v.kind
    case None => ""
    case Some(k) => k
  }

  /** The issue for one line of one file of a record. */
  function RatsIssue(v: Vulnerability, fileName: string, line: int): Issue {
    Issue(line, v.message, SKey + "." + KindText(v), fileName, "", v.severity)
  }

  // ---------------------------------------------------------------------------
  // The flattening, defined from the back so that each loop step appends.
  // ---------------------------------------------------------------------------

  function LineIssues(v: Vulnerability, fileName: string, lines: seq<int>): (r: seq<Issue>)
    ensures |r| == |lines|
    decreases |lines|
  {
    if |lines| == 0 then []
    else LineIssues(v, fileName, lines[..|lines| - 1]) + [RatsIssue(v, fileName, lines[|lines| - 1])]
  }

  function FileIssues(v: Vulnerability, files: seq<RatsFile>): seq<Issue>
    decreases |files|
  {
    if |files| == 0 then []
    else
      var f := files[|files| - 1];
      FileIssues(v, files[..|files| - 1]) + LineIssues(v, f.name, f.lineIds)
  }

  function RecordIssues(v: Vulnerability): seq<Issue> {
    if Untyped(v) then FileIssues(v, v.files) else []
  }

  function Flatten(records: seq<Vulnerability>): seq<Issue>
    decreases |records|
  {
    if |records| == 0 then []
    else Flatten(records[..|records| - 1]) + RecordIssues(records[|records| - 1])
  }

  // ---------------------------------------------------------------------------
  // GetViolations
  // ---------------------------------------------------------------------------

  /** The triple loop over records, files and lines. */
  method Collect(records: seq<Vulnerability>) returns (violations: seq<Issue>)
    ensures violations == Flatten(records)
  {
    violations := [];
    for i := 0 to |records|
      invariant violations == Flatten(records[..i])
    {
      violations := AddRecord(records[i], violations);
      FlattenStep(records, i);
    }
    assert records[..|records|] == records;
  }

  /** The loop over the files of one record, which only an untyped record enters. */
  method AddRecord(result: Vulnerability, before: seq<Issue>) returns (violations: seq<Issue>)
    ensures violations == before + RecordIssues(result)
  {
    violations := before;
    if Untyped(result) {
      for j := 0 to |result.files|
        invariant violations == before + FileIssues(result, result.files[..j])
      {
        var file := result.files[j];
        violations := AddFile(result, file, violations);
        FileIssuesStep(result, result.files, j);
        Assoc(before, FileIssues(result, result.files[..j]), LineIssues(result, file.name, file.lineIds));
      }
      assert result.files[..|result.files|] == result.files;
    }
  }

  /** The loop over the lines of one file: one issue per line. */
  method AddFile(result: Vulnerability, file: RatsFile, before: seq<Issue>) returns (violations: seq<Issue>)
    ensures violations == before + LineIssues(result, file.name, file.lineIds)
  {
    violations := before;
    for k := 0 to |file.lineIds|
      invariant violations == before + LineIssues(result, file.name, file.lineIds[..k])
    {
      var entry := RatsIssue(result, file.name, file.lineIds[k]);
      LineIssuesStep(result, file.name, file.lineIds, k);
      Assoc(before, LineIssues(result, file.name, file.lineIds[..k]), [entry]);
      violations := violations + [entry];
    }
    assert file.lineIds[..|file.lineIds|] == file.lineIds;
  }

  lemma LineIssuesStep(v: Vulnerability, fileName: string, lines: seq<int>, k: nat)
    requires k < |lines|
    ensures LineIssues(v, fileName, lines[..k + 1]) == LineIssues(v, fileName, lines[..k]) + [RatsIssue(v, fileName, lines[k])]
  {
    assert lines[..k + 1][..k] == lines[..k];
  }

  lemma FileIssuesStep(v: Vulnerability, files: seq<RatsFile>, j: nat)
    requires j < |files|
    ensures FileIssues(v, files[..j + 1]) == FileIssues(v, files[..j]) + LineIssues(v, files[j].name, files[j].lineIds)
  {
    assert files[..j + 1][..j] == files[..j];
  }

  lemma FlattenStep(records: seq<Vulnerability>, i: nat)
    requires i < |records|
    ensures Flatten(records[..i + 1]) == Flatten(records[..i]) + RecordIssues(records[i])
  {
    assert records[..i + 1][..i] == records[..i];
  }

  /**
   * What GetViolations yields: no lines give no issues; otherwise the
   * decoder's exception propagates, or its records are flattened.
   */
  function Report(lines: seq<string>, decode: Decoder): (r: Result<seq<Issue>>)
    ensures |lines| == 0 ==> r == Ok([])
    ensures |lines| > 0 ==> (r.Throws? <==> decode(Join(lines, "\r\n")).Throws?)
    ensures r.Ok? && |lines| > 0 ==> r.value == Flatten(decode(Join(lines, "\r\n")).value)
  {
    if |lines| == 0 then Ok([])
    else
      match decode(Join(lines, "\r\n"))
      case Throws(e) => Throws(e)
      case Ok(records) => Ok(Flatten(records))
  }

  method GetViolations(lines: seq<string>, decode: Decoder) returns (r: Result<seq<Issue>>)
    ensures r == Report(lines, decode)
  {
    if |lines| == 0 {
      return Ok([]);
    }
    var output := decode(Join(lines, "\r\n"));
    if output.Throws? {
      return Throws(output.exception);
    }
    var violations := Collect(output.value);
    return Ok(violations);
  }

  // ---------------------------------------------------------------------------
  // What the flattening promises.
  // ---------------------------------------------------------------------------

  /** The number of (file, line) pairs of the untyped records. */
  function PairCount(records: seq<Vulnerability>): nat
    decreases |records|
  {
    if |records| == 0 then 0
    else
      var v := records[|records| - 1];
      PairCount(records[..|records| - 1]) + (if Untyped(v) then FilePairs(v.files) else 0)
  }

  function FilePairs(files: seq<RatsFile>): nat
    decreases |files|
  {
    if |files| == 0 then 0 else FilePairs(files[..|files| - 1]) + |files[|files| - 1].lineIds|
  }

  /** One issue per (file, line) pair of an untyped record, and no others. */
  lemma {:induction false} FlattenCount(records: seq<Vulnerability>)
    ensures |Flatten(records)| == PairCount(records)
    decreases |records|
  {
    if |records| > 0 {
      FlattenCount(records[..|records| - 1]);
      FileIssuesCount(records[|records| - 1], records[|records| - 1].files);
    }
  }

  lemma {:induction false} FileIssuesCount(v: Vulnerability, files: seq<RatsFile>)
    ensures |FileIssues(v, files)| == FilePairs(files)
    decreases |files|
  {
    if |files| > 0 {
      FileIssuesCount(v, files[..|files| - 1]);
    }
  }

  /** The issues of one file are its lines in order. */
  lemma {:induction false} LineIssuesAt(v: Vulnerability, fileName: string, lines: seq<int>, k: nat)
    requires k < |lines|
    ensures LineIssues(v, fileName, lines)[k] == RatsIssue(v, fileName, lines[k])
    decreases |lines|
  {
    if k < |lines| - 1 {
      LineIssuesAt(v, fileName, lines[..|lines| - 1], k);
    }
  }

  /** `issue` is the one for line k of file j of record i, an untyped record. */
  predicate IsPairIssue(records: seq<Vulnerability>, i: int, j: int, k: int, issue: Issue) {
    && 0 <= i < |records| && Untyped(records[i])
    && 0 <= j < |records[i].files| && 0 <= k < |records[i].files[j].lineIds|
    && issue == RatsIssue(records[i], records[i].files[j].name, records[i].files[j].lineIds[k])
  }

  /** An issue is produced exactly for a (file, line) pair of an untyped record. */
  lemma {:induction false} FlattenMember(records: seq<Vulnerability>, issue: Issue)
    ensures issue in Flatten(records) <==> exists i, j, k :: IsPairIssue(records, i, j, k, issue)
    decreases |records|
  {
    if |records| > 0 {
      var n := |records| - 1;
      var init := records[..n];
      var v := records[n];
      FlattenMember(init, issue);
      FileIssuesMember(v, v.files, issue);
      if issue in Flatten(init) {
        var i, j, k :| IsPairIssue(init, i, j, k, issue);
        assert records[i] == init[i];
        assert IsPairIssue(records, i, j, k, issue);
      }
      if issue in RecordIssues(v) {
        var j, k :| 0 <= j < |v.files| && 0 <= k < |v.files[j].lineIds| && issue == RatsIssue(v, v.files[j].name, v.files[j].lineIds[k]);
        assert IsPairIssue(records, n, j, k, issue);
      }
      if exists i, j, k :: IsPairIssue(records, i, j, k, issue) {
        var i, j, k :| IsPairIssue(records, i, j, k, issue);
        if i < n {
          assert records[i] == init[i];
          assert IsPairIssue(init, i, j, k, issue);
        }
      }
    }
  }

  lemma {:induction false} FileIssuesMember(v: Vulnerability, files: seq<RatsFile>, issue: Issue)
    ensures issue in FileIssues(v, files) <==>
      exists j, k :: 0 <= j < |files| && 0 <= k < |files[j].lineIds|
        && issue == RatsIssue(v, files[j].name, files[j].lineIds[k])
    decreases |files|
  {
    if |files| > 0 {
      var n := |files| - 1;
      var init := files[..n];
      var f := files[n];
      FileIssuesMember(v, init, issue);
      LineIssuesMember(v, f.name, f.lineIds, issue);
      if issue in FileIssues(v, init) {
        var j, k :| 0 <= j < |init| && 0 <= k < |init[j].lineIds| && issue == RatsIssue(v, init[j].name, init[j].lineIds[k]);
        assert files[j] == init[j];
      }
      if exists j, k :: 0 <= j < |files| && 0 <= k < |files[j].lineIds| && issue == RatsIssue(v, files[j].name, files[j].lineIds[k]) {
        var j, k :| 0 <= j < |files| && 0 <= k < |files[j].lineIds| && issue == RatsIssue(v, files[j].name, files[j].lineIds[k]);
        if j < n {
          assert files[j] == init[j];
        }
      }
    }
  }

  lemma LineIssuesMember(v: Vulnerability, fileName: string, lines: seq<int>, issue: Issue)
    ensures issue in LineIssues(v, fileName, lines) <==>
      exists k :: 0 <= k < |lines| && issue == RatsIssue(v, fileName, lines[k])
  {
    var r := LineIssues(v, fileName, lines);
    if issue in r {
      var k :| 0 <= k < |r| && r[k] == issue;
      LineIssuesAt(v, fileName, lines, k);
    }
    if exists k :: 0 <= k < |lines| && issue == RatsIssue(v, fileName, lines[k]) {
      var k :| 0 <= k < |lines| && issue == RatsIssue(v, fileName, lines[k]);
      LineIssuesAt(v, fileName, lines, k);
    }
  }

  /** Every emitted issue has the rule `rats.`, since only untyped records are read. */
  lemma FlattenRule(records: seq<Vulnerability>, issue: Issue)
    requires issue in Flatten(records)
    ensures issue.rule == SKey + "."
  {
    FlattenMember(records, issue);
  }

  /** The executable and arguments the sensor launches, read from the options. */
  function GetCommand(options: Dict): (r: Result<string>)
    ensures r.Ok? <==> ContainsKey(options, "RatsExecutable")
    ensures r.Ok? ==> Entry("RatsExecutable", r.value) in options
  {
    Index(options, "RatsExecutable")
  }

  function GetArguments(options: Dict): (r: Result<string>)
    ensures r.Ok? <==> ContainsKey(options, "RatsArguments")
    ensures r.Ok? ==> Entry("RatsArguments", r.value) in options
  {
    Index(options, "RatsArguments")
  }
}
