/**
 * The cppcheck sensor. Its XML report is decoded into error records, and
 * every record becomes an issue except those of the `unusedFunction` check.
 */
module CppCheckSensor {
  import opened Wrappers
  import opened Strings
  import opened Seqs
  import opened Issues
  import opened Dictionaries

  /** The repository key, which is also the sensor's key. */
  const SKey := "cppcheck"

  /** The rule key the sensor never reports. */
  const UnusedFunctionRule := "cppcheck.unusedFunction"

  /** One `<error>` record of the report; its severity is decoded but not used. */
  datatype CppError = CppError(file: string, line: int, id: string, severity: string, msg: string)

  /**
   * The XML deserializer, applied to the output lines joined with CR LF.
   * It is outside the model; Throws is the exception it raises on text it
   * cannot read.
   */
  type Decoder = string -> Result<seq<CppError>>

  /** The issue of one record, None for the excluded rule. */
  function ToIssue(error: CppError): (r: Option<Issue>)
    ensures r.Some? <==> error.id != "unusedFunction"
    ensures r.Some? ==> r.value == NewIssue(error.line, error.msg, SKey + "." + error.id, error.file)
  {
    var ruleKey := SKey + "." + error.id;
    RuleKeyIsUnused(error.id);
    if ruleKey == UnusedFunctionRule then None
    else Some(NewIssue(error.line, error.msg, ruleKey, error.file))
  }

  /** The rule key equals the excluded key exactly for the id `unusedFunction`. */
  lemma RuleKeyIsUnused(id: string)
    ensures SKey + "." + id == UnusedFunctionRule <==> id == "unusedFunction"
  {
    if SKey + "." + id == UnusedFunctionRule {
      assert id == (SKey + "." + id)[9..];
    }
  }

  /** The query over the records: every record but the excluded ones, in record order. */
  function Violations(errors: seq<CppError>): seq<Issue> {
    FilterMap(errors, ToIssue)
  }

  /** GetViolations: no lines give no issues; otherwise the decoded records are mapped. */
  function GetViolations(lines: seq<string>, decode: Decoder): (r: Result<seq<Issue>>)
    ensures |lines| == 0 ==> r == Ok([])
    ensures |lines| > 0 ==> (r.Throws? <==> decode(Join(lines, "\r\n")).Throws?)
    ensures r.Ok? ==> forall issue :: issue in r.value ==> issue.rule != UnusedFunctionRule
  {
    if |lines| == 0 then Ok([])
    else
      match decode(Join(lines, "\r\n"))
      case Throws(e) => Throws(e)
      case Ok(errors) =>
        assert forall issue :: issue in Violations(errors) ==> issue.rule != UnusedFunctionRule by {
          forall issue | issue in Violations(errors)
            ensures issue.rule != UnusedFunctionRule
          {
            NoUnusedFunction(errors, issue);
          }
        }
        Ok(Violations(errors))
  }

  /** No issue of the excluded rule is ever produced, and no severity is set. */
  lemma NoUnusedFunction(errors: seq<CppError>, issue: Issue)
    requires issue in Violations(errors)
    ensures issue.rule != UnusedFunctionRule && issue.severity == None
  {
    FilterMapMember(errors, ToIssue, issue);
    var i :| 0 <= i < |errors| && ToIssue(errors[i]) == Some(issue);
    RuleKeyIsUnused(errors[i].id);
  }

  /** An issue is produced exactly for a record that is not `unusedFunction`, with that record's fields. */
  lemma ViolationsMember(errors: seq<CppError>, issue: Issue)
    ensures issue in Violations(errors) <==>
      exists i :: 0 <= i < |errors| && errors[i].id != "unusedFunction"
        && issue == NewIssue(errors[i].line, errors[i].msg, SKey + "." + errors[i].id, errors[i].file)
  {
    FilterMapMember(errors, ToIssue, issue);
  }

  /** The records of the `unusedFunction` check. */
  function CountUnused(errors: seq<CppError>): (n: nat)
    ensures n <= |errors|
    decreases |errors|
  {
    if |errors| == 0 then 0
    else CountUnused(errors[..|errors| - 1]) + (if errors[|errors| - 1].id == "unusedFunction" then 1 else 0)
  }

  /** One issue per record, less one per `unusedFunction` record. */
  lemma {:induction false} ViolationsCount(errors: seq<CppError>)
    ensures |Violations(errors)| == |errors| - CountUnused(errors)
    decreases |errors|
  {
    if |errors| > 0 {
      ViolationsCount(errors[..|errors| - 1]);
    }
  }

  /** The executable and arguments the sensor launches, read from the options. */
  function GetCommand(options: Dict): (r: Result<string>)
    ensures r.Ok? <==> ContainsKey(options, "CppCheckExecutable")
    ensures r.Ok? ==> Entry("CppCheckExecutable", r.value) in options
  {
    Index(options, "CppCheckExecutable")
  }

  function GetArguments(options: Dict): (r: Result<string>)
    ensures r.Ok? <==> ContainsKey(options, "CppCheckArguments")
    ensures r.Ok? ==> Entry("CppCheckArguments", r.value) in options
  {
    Index(options, "CppCheckArguments")
  }
}
