/**
 * The PC-lint sensor. Its lines have the same `file(line): message [id]`
 * shape as the custom sensor's and are walked by the same cursor scanner;
 * only the rule id differs, joined to the repository key by a colon.
 */
module PcLintSensor {
  import opened Wrappers
  import opened Strings
  import opened Seqs
  import opened Issues
  import CxxExternalSensor

  /** The repository key, which is also the sensor's key. */
  const SKey := "pclint"

  /** The issue one line yields, or None when its line number does not convert. */
  function ParseLine(line: string): (r: Option<Issue>)
    ensures r.Some? <==> ParseInt32(CxxExternalSensor.Fields(line).number).Some?
    ensures r.Some? ==> r.value.rule == SKey + ":" + CxxExternalSensor.Fields(line).id
    ensures r.Some? ==> r.value.component == CxxExternalSensor.Fields(line).file
  {
    var f := CxxExternalSensor.Fields(line);
    match ParseInt32(f.number)
    case None => None
    case Some(n) => Some(NewIssue(n, Trim(f.message), SKey + ":" + f.id, f.file))
  }

  /** A well-formed line becomes one issue whose rule is `pclint:` and the id. */
  lemma ParseWellFormedLine(line: string, file: string, number: string, skipped: char, message: string, id: string, rest: string)
    requires CxxExternalSensor.WellFormed(line, file, number, skipped, message, id, rest)
    ensures ParseLine(line) == match ParseInt32(number)
      case None => None
      case Some(n) => Some(NewIssue(n, Trim(message), SKey + ":" + id, file))
  {
    CxxExternalSensor.FieldsOfWellFormed(line, file, number, skipped, message, id, rest);
  }

  /** A line whose number field is not an Int32 is skipped. */
  lemma SkipsBadNumber(line: string, file: string, number: string, skipped: char, message: string, id: string, rest: string)
    requires CxxExternalSensor.WellFormed(line, file, number, skipped, message, id, rest)
    requires ParseInt32(number) == None
    ensures ParseLine(line) == None
  {
    CxxExternalSensor.FieldsOfWellFormed(line, file, number, skipped, message, id, rest);
  }

  function LineParser(): string -> Option<Issue> {
    (line: string) => ParseLine(line)
  }

  /** The issues of all lines that parse, in line order. */
  method GetViolations(lines: seq<string>) returns (violations: seq<Issue>)
    ensures violations == FilterMap(lines, LineParser())
  {
    violations := [];
    if |lines| == 0 {
      return;
    }
    for i := 0 to |lines|
      invariant violations == FilterMap(lines[..i], LineParser())
    {
      var entry := ReadLine(lines[i]);
      FilterMapStep(lines, i, LineParser(), violations, entry);
      if entry.Some? {
        violations := violations + [entry.value];
      }
    }
    assert lines[..|lines|] == lines;
  }

  /** The body of the loop for one line: the cursor walk, the number conversion and the rule. */
  method ReadLine(line: string) returns (entry: Option<Issue>)
    ensures entry == ParseLine(line)
  {
    var fields := CxxExternalSensor.ReadFields(line);
    var lineNumber := ParseInt32(fields.number);
    if lineNumber.None? {
      return None;
    }
    return Some(NewIssue(lineNumber.value, Trim(fields.message), SKey + ":" + fields.id, fields.file));
  }

  /** Every issue of the sensor carries a rule of its repository. */
  lemma ViolationRules(lines: seq<string>)
    ensures forall v :: v in FilterMap(lines, LineParser()) ==> StartsWith(v.rule, SKey + ":")
  {
    forall v | v in FilterMap(lines, LineParser())
      ensures StartsWith(v.rule, SKey + ":")
    {
      FilterMapMember(lines, LineParser(), v);
    }
  }
}
