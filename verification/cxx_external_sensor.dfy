/**
 * The custom ("other") sensor, which reads tool output lines of the form
 * `file(line): message [id]`, and the cursor scanner that this sensor and
 * the PC-lint sensor both walk a line with.
 */
module CxxExternalSensor {
  import opened Wrappers
  import opened Strings
  import opened Seqs
  import opened Issues
  import opened Dictionaries

  /** The repository key the sensor's rules live under. */
  const SKey := "other"

  // ---------------------------------------------------------------------------
  // The cursor scanner (GetStringUntilFirstChar).
  // ---------------------------------------------------------------------------

  /** The first position at or after `i` holding `c`, or |line| when there is none. */
  function FirstFrom(line: string, i: nat, c: char): (j: nat)
    requires i <= |line|
    ensures i <= j <= |line|
    ensures j < |line| ==> line[j] == c
    decreases |line| - i
  {
    if i == |line| || line[i] == c then i else FirstFrom(line, i + 1, c)
  }

  /** No `c` lies between `i` and the position FirstFrom finds. */
  lemma {:induction false} FirstFromSkips(line: string, i: nat, c: char)
    requires i <= |line|
    ensures forall k :: i <= k < FirstFrom(line, i, c) ==> line[k] != c
    decreases |line| - i
  {
    if i < |line| && line[i] != c {
      FirstFromSkips(line, i + 1, c);
    }
  }

  /** The characters from `i` up to the first `c`, collected one at a time. */
  function Run(line: string, i: nat, c: char): string
    requires i <= |line|
    decreases |line| - i
  {
    if i == |line| || line[i] == c then [] else [line[i]] + Run(line, i + 1, c)
  }

  /** The run is the slice of `line` between `i` and the position FirstFrom finds. */
  lemma {:induction false} RunIsSlice(line: string, i: nat, c: char)
    requires i <= |line|
    ensures Run(line, i, c) == line[i..FirstFrom(line, i, c)]
    decreases |line| - i
  {
    if i < |line| && line[i] != c {
      RunIsSlice(line, i + 1, c);
      assert line[i..FirstFrom(line, i, c)] == [line[i]] + line[i + 1..FirstFrom(line, i + 1, c)];
    }
  }

  /** What the scanner returns, and where it leaves the cursor. */
  datatype Scanned = Scanned(data: string, start: nat)

  /**
   * The text from `start` up to the first `c`. The cursor stops on that `c`;
   * when there is none it stops on the last character, and when `start` is
   * already past the end it does not move.
   */
  function Scan(line: string, start: nat, c: char): (r: Scanned)
  {
    if start >= |line| then Scanned("", start)
    else
      var j := FirstFrom(line, start, c);
      Scanned(Run(line, start, c), if j < |line| then j else |line| - 1)
  }

  /** What the scan reads is a run of `line` free of `c`, ending at `c` or at the end. */
  lemma ScanSpec(line: string, start: nat, c: char)
    ensures var r := Scan(line, start, c);
      && c !in r.data
      && (start >= |line| ==> r == Scanned("", start))
      && (start < |line| ==> start + |r.data| <= |line| && r.data == line[start..start + |r.data|])
      && (start < |line| && c in line[start..] ==> r.start == start + |r.data| && line[r.start] == c)
      && (start < |line| && c !in line[start..] ==> r.data == line[start..] && r.start == |line| - 1)
  {
    if start < |line| {
      var j := FirstFrom(line, start, c);
      FirstFromSkips(line, start, c);
      RunIsSlice(line, start, c);
      assert line[start..j] == line[start..][..j - start];
      if c in line[start..] {
        var k :| start <= k < |line| && line[k] == c;
      }
    }
  }

  /** The scan stops at the first `c` after `start`. */
  lemma ScanFinds(line: string, start: nat, c: char, k: nat)
    requires start <= k < |line| && line[k] == c
    requires forall j :: start <= j < k ==> line[j] != c
    ensures Scan(line, start, c) == Scanned(line[start..k], k)
  {
    FirstFromSkips(line, start, c);
    RunIsSlice(line, start, c);
    assert FirstFrom(line, start, c) <= k;
  }

  method GetStringUntilFirstChar(start: nat, line: string, charCheck: char) returns (data: string, next: nat)
    ensures Scanned(data, next) == Scan(line, start, charCheck)
  {
    data := "";
    next := start;
    var i := start;
    var found := false;
    while i < |line| && !found
      invariant start <= i
      invariant i > start ==> i <= |line|
      invariant found ==> i < |line| && line[i] == charCheck && next == i
      invariant !found ==> next == if i == start then start else i - 1
      invariant |data| == i - start
      invariant forall k :: 0 <= k < |data| ==> data[k] == line[start + k] && data[k] != charCheck
      decreases |line| - i, if found then 0 else 1
    {
      next := i;
      if line[i] == charCheck {
        found := true;
      } else {
        data := data + [line[i]];
        i := i + 1;
      }
    }
    if start < |line| {
      RunIsSlice(line, start, charCheck);
      assert data == line[start..i];
      if found {
        ScanFinds(line, start, charCheck, i);
      } else {
        assert FirstFrom(line, start, charCheck) == |line|;
      }
    }
  }

  // ---------------------------------------------------------------------------
  // One output line: file, line number, message and rule id.
  // ---------------------------------------------------------------------------

  /** The four fields of a line as the scanner reads them: the number still text, the message untrimmed. */
  datatype LintFields = LintFields(file: string, number: string, message: string, id: string)

  /**
   * The fields the cursor walk reads from a line: the file up to `(`, the
   * number up to `)`, two characters skipped, the message up to `[`, one
   * character skipped, the id up to `]`.
   */
  function Fields(line: string): LintFields {
    var file := Scan(line, 0, '(');
    var number := Scan(line, file.start + 1, ')');
    var message := Scan(line, number.start + 2, '[');
    var id := Scan(line, message.start + 1, ']');
    LintFields(file.data, number.data, message.data, id.data)
  }

  /** The cursor walk over one line. */
  method ReadFields(line: string) returns (fields: LintFields)
    ensures fields == Fields(line)
  {
    var start: nat := 0;
    var file, number, message, id;
    file, start := GetStringUntilFirstChar(start, line, '(');
    ghost var afterFile := start;
    start := start + 1;
    number, start := GetStringUntilFirstChar(start, line, ')');
    ghost var afterNumber := start;
    start := start + 2;
    message, start := GetStringUntilFirstChar(start, line, '[');
    ghost var afterMessage := start;
    start := start + 1;
    id, start := GetStringUntilFirstChar(start, line, ']');
    fields := LintFields(file, number, message, id);
    assert Scan(line, 0, '(') == Scanned(file, afterFile);
    assert Scan(line, afterFile + 1, ')') == Scanned(number, afterNumber);
    assert Scan(line, afterNumber + 2, '[') == Scanned(message, afterMessage);
    assert Scan(line, afterMessage + 1, ']') == Scanned(id, start);
  }

  /** A piece free of `c` and followed by `c` is read in one scan, leaving the cursor on that `c`. */
  lemma ScanPiece(prefix: string, piece: string, c: char, rest: string)
    requires c !in piece
    ensures Scan(prefix + piece + [c] + rest, |prefix|, c) == Scanned(piece, |prefix| + |piece|)
  {
    var line := prefix + piece + [c] + rest;
    var k := |prefix| + |piece|;
    assert line[|prefix|..k] == piece;
    assert line[k] == c;
    ScanFinds(line, |prefix|, c, k);
  }

  /** The shape `file(number)?message[id]rest` of a line the sensor reads in full. */
  predicate WellFormed(line: string, file: string, number: string, skipped: char, message: string, id: string, rest: string) {
    && '(' !in file && ')' !in number && '[' !in message && ']' !in id
    && line == file + "(" + number + ")" + [skipped] + message + "[" + id + "]" + rest
  }

  lemma ScanFile(line: string, file: string, number: string, skipped: char, message: string, id: string, rest: string)
    requires WellFormed(line, file, number, skipped, message, id, rest)
    ensures Scan(line, 0, '(') == Scanned(file, |file|)
  {
    var post := number + ")" + [skipped] + message + "[" + id + "]" + rest;
    assert line == [] + file + ['('] + post;
    ScanPiece([], file, '(', post);
  }

  lemma ScanNumber(line: string, file: string, number: string, skipped: char, message: string, id: string, rest: string)
    requires WellFormed(line, file, number, skipped, message, id, rest)
    ensures Scan(line, |file| + 1, ')') == Scanned(number, |file| + 1 + |number|)
  {
    var post := [skipped] + message + "[" + id + "]" + rest;
    assert line == (file + "(") + number + [')'] + post;
    ScanPiece(file + "(", number, ')', post);
  }

  lemma ScanMessage(line: string, file: string, number: string, skipped: char, message: string, id: string, rest: string)
    requires WellFormed(line, file, number, skipped, message, id, rest)
    ensures Scan(line, |file| + |number| + 3, '[') == Scanned(message, |file| + |number| + 3 + |message|)
  {
    var pre := file + "(" + number + ")" + [skipped];
    var post := id + "]" + rest;
    assert line == pre + message + ['['] + post;
    ScanPiece(pre, message, '[', post);
  }

  lemma ScanId(line: string, file: string, number: string, skipped: char, message: string, id: string, rest: string)
    requires WellFormed(line, file, number, skipped, message, id, rest)
    ensures Scan(line, |file| + |number| + |message| + 4, ']') == Scanned(id, |file| + |number| + |message| + 4 + |id|)
  {
    var pre := file + "(" + number + ")" + [skipped] + message + "[";
    assert line == pre + id + [']'] + rest;
    ScanPiece(pre, id, ']', rest);
  }

  /** A well-formed line yields its four fields, whatever follows the `]`. */
  lemma FieldsOfWellFormed(line: string, file: string, number: string, skipped: char, message: string, id: string, rest: string)
    requires WellFormed(line, file, number, skipped, message, id, rest)
    ensures Fields(line) == LintFields(file, number, message, id)
  {
    var p0 := |file|;
    var p1 := p0 + 1 + |number|;
    var p2 := p1 + 2 + |message|;
    ScanFile(line, file, number, skipped, message, id, rest);
    ScanNumber(line, file, number, skipped, message, id, rest);
    ScanMessage(line, file, number, skipped, message, id, rest);
    ScanId(line, file, number, skipped, message, id, rest);
    FieldsFromScans(line, file, p0, number, p1, message, p2, id, p2 + 1 + |id|);
  }

  /** Fields assembled from the four scans it is made of. */
  lemma FieldsFromScans(line: string, file: string, p0: nat, number: string, p1: nat, message: string, p2: nat, id: string, p3: nat)
    requires Scan(line, 0, '(') == Scanned(file, p0)
    requires Scan(line, p0 + 1, ')') == Scanned(number, p1)
    requires Scan(line, p1 + 2, '[') == Scanned(message, p2)
    requires Scan(line, p2 + 1, ']') == Scanned(id, p3)
    ensures Fields(line) == LintFields(file, number, message, id)
  {
  }

  /** A line that ends after the message, with no `[`, yields an empty id. */
  lemma FieldsWithoutId(file: string, number: string, skipped: char, message: string)
    requires '(' !in file && ')' !in number && '[' !in message
    ensures Fields(file + "(" + number + ")" + [skipped] + message) == LintFields(file, number, message, "")
  {
    var line := file + "(" + number + ")" + [skipped] + message;
    var pre := file + "(" + number + ")" + [skipped];
    ScanHead(file, number, skipped, message);
    if |message| > 0 {
      ScanRest(pre, message, '[');
      FieldsFromScans(line, file, |file|, number, |file| + 1 + |number|, message, |line| - 1, "", |line|);
    } else {
      FieldsFromScans(line, file, |file|, number, |file| + 1 + |number|, message, |line|, "", |line| + 1);
    }
  }

  /** The file and the number of a line `file(number)` + one character + `tail`. */
  lemma ScanHead(file: string, number: string, skipped: char, tail: string)
    requires '(' !in file && ')' !in number
    ensures var line := file + "(" + number + ")" + [skipped] + tail;
      && Scan(line, 0, '(') == Scanned(file, |file|)
      && Scan(line, |file| + 1, ')') == Scanned(number, |file| + 1 + |number|)
  {
    var line := file + "(" + number + ")" + [skipped] + tail;
    assert line == [] + file + ['('] + (number + ")" + [skipped] + tail);
    ScanPiece([], file, '(', number + ")" + [skipped] + tail);
    assert line == (file + "(") + number + [')'] + ([skipped] + tail);
    ScanPiece(file + "(", number, ')', [skipped] + tail);
  }

  /** A non-empty tail free of `c` is read whole, leaving the cursor on its last character. */
  lemma ScanRest(prefix: string, tail: string, c: char)
    requires c !in tail && |tail| > 0
    ensures Scan(prefix + tail, |prefix|, c) == Scanned(tail, |prefix| + |tail| - 1)
  {
    assert (prefix + tail)[|prefix|..] == tail;
    ScanSpec(prefix + tail, |prefix|, c);
  }

  /** In a line without `(` the file is the whole line and no number follows it. */
  lemma FieldsWithoutParenthesis(line: string)
    requires '(' !in line && |line| > 0
    ensures Fields(line).file == line && Fields(line).number == ""
  {
    ScanSpec(line, 0, '(');
    assert line[0..] == line;
  }

  // ---------------------------------------------------------------------------
  // GetViolations
  // ---------------------------------------------------------------------------

  /** The rule id, qualified by the configured custom key when there is one. */
  function QualifiedId(otherKey: string, id: string): string {
    if otherKey != "" then otherKey + "." + id else id
  }

  /**
   * The issue one line yields, or None when Convert.ToInt32 rejects its line
   * number and the line is skipped.
   */
  function ParseLine(line: string, otherKey: string): (r: Option<Issue>)
    ensures r.Some? <==> ParseInt32(Fields(line).number).Some?
    ensures r.Some? ==> StartsWith(r.value.rule, SKey + ".") && r.value.severity == None
    ensures r.Some? ==> r.value.component == Fields(line).file && r.value.message == Trim(Fields(line).message)
  {
    var f := Fields(line);
    match ParseInt32(f.number)
    case None => None
    case Some(n) => Some(NewIssue(n, Trim(f.message), SKey + "." + QualifiedId(otherKey, f.id), f.file))
  }

  /** A well-formed line becomes one issue carrying its file, number, trimmed message and qualified id. */
  lemma ParseWellFormedLine(line: string, file: string, number: string, skipped: char, message: string, id: string, rest: string, otherKey: string)
    requires WellFormed(line, file, number, skipped, message, id, rest)
    ensures ParseLine(line, otherKey) == match ParseInt32(number)
      case None => None
      case Some(n) => Some(NewIssue(n, Trim(message), SKey + "." + QualifiedId(otherKey, id), file))
  {
    FieldsOfWellFormed(line, file, number, skipped, message, id, rest);
  }

  function LineParser(otherKey: string): string -> Option<Issue> {
    (line: string) => ParseLine(line, otherKey)
  }

  /**
   * The issues of all lines that parse, in line order; `otherKey` is the
   * CustomKey option read when the sensor is built.
   */
  method GetViolations(lines: seq<string>, otherKey: string) returns (violations: seq<Issue>)
    ensures violations == FilterMap(lines, LineParser(otherKey))
  {
    violations := [];
    if |lines| == 0 {
      return;
    }
    ghost var parser := LineParser(otherKey);
    for i := 0 to |lines|
      invariant violations == FilterMap(lines[..i], parser)
    {
      var entry := ReadLine(lines[i], otherKey);
      FilterMapStep(lines, i, parser, violations, entry);
      if entry.Some? {
        violations := violations + [entry.value];
      }
    }
    assert lines[..|lines|] == lines;
  }

  /** The body of the loop for one line: the cursor walk, the number conversion and the qualified rule. */
  method ReadLine(line: string, otherKey: string) returns (entry: Option<Issue>)
    ensures entry == ParseLine(line, otherKey)
  {
    var fields := ReadFields(line);
    var lineNumber := ParseInt32(fields.number);
    if lineNumber.None? {
      return None;
    }
    var id := fields.id;
    if otherKey != "" {
      id := otherKey + "." + id;
    }
    return Some(NewIssue(lineNumber.value, Trim(fields.message), SKey + "." + id, fields.file));
  }

  /** Every issue of the sensor carries a rule of its repository. */
  lemma ViolationRules(lines: seq<string>, otherKey: string)
    ensures forall v :: v in FilterMap(lines, LineParser(otherKey)) ==> StartsWith(v.rule, SKey + ".")
  {
    forall v | v in FilterMap(lines, LineParser(otherKey))
      ensures StartsWith(v.rule, SKey + ".")
    {
      FilterMapMember(lines, LineParser(otherKey), v);
    }
  }

  /** The custom key the constructor reads; a missing option throws. */
  function GetOtherKey(options: Dict): (r: Result<string>)
    ensures r.Ok? <==> ContainsKey(options, "CustomKey")
    ensures r.Ok? ==> Entry("CustomKey", r.value) in options
  {
    Index(options, "CustomKey")
  }

  /** The executable and arguments the sensor launches, read from the options. */
  function GetCommand(options: Dict): (r: Result<string>)
    ensures r.Ok? <==> ContainsKey(options, "CustomExecutable")
    ensures r.Ok? ==> Entry("CustomExecutable", r.value) in options
  {
    Index(options, "CustomExecutable")
  }

  function GetArguments(options: Dict): (r: Result<string>)
    ensures r.Ok? <==> ContainsKey(options, "CustomArguments")
    ensures r.Ok? ==> Entry("CustomArguments", r.value) in options
  {
    Index(options, "CustomArguments")
  }
}
