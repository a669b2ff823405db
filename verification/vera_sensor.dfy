/**
 * The vera++ sensor. A line `drive:path:line:text(id)message` is cut on
 * `:`, and the fourth piece on `(` and `)`; any missing piece or a line
 * number that does not convert makes the line skipped.
 */
module VeraSensor {
  import opened Wrappers
  import opened Strings
  import opened Seqs
  import opened Issues
  import opened Dictionaries

  /** The repository key, which is also the sensor's key. */
  const SKey := "vera++"

  /**
   * The issue one line yields. None stands for the IndexOutOfRangeException
   * of a missing piece and for a line number Convert.ToInt32 rejects.
   */
  function ParseLine(line: string): (r: Option<Issue>)
    ensures r.Some? ==> |Split(line, ':')| >= 4 && ParseInt32(Split(line, ':')[2]) == Some(r.value.line)
    ensures r.Some? ==> StartsWith(r.value.rule, SKey + ".") && r.value.severity == None
    ensures r.Some? ==> ')' !in r.value.message && ':' !in r.value.message
  {
    var elems := Split(line, ':');
    if |elems| < 4 then None
    else
      match ParseInt32(elems[2])
      case None => None
      case Some(n) =>
        var data := Split(elems[3], '(');
        if |data| < 2 then None
        else
          var parts := Split(data[1], ')');
          if |parts| < 2 then None
          else
            SplitJoin(line, ':');
            SplitJoin(data[1], ')');
            assert ':' !in parts[1] by {
              SplitJoin(elems[3], '(');
              assert ':' !in data[1] by { JoinMember(data, "(", 1); }
              JoinMember(parts, ")", 1);
            }
            Some(NewIssue(n, parts[1], SKey + "." + parts[0], elems[0] + ":" + elems[1]))
  }

  /** A piece of a split is part of the joined text. */
  lemma {:induction false} JoinMember(pieces: seq<string>, separator: string, k: nat)
    requires k < |pieces|
    ensures forall c :: c in pieces[k] ==> c in Join(pieces, separator)
    decreases |pieces|
  {
    if k > 0 {
      JoinMember(pieces[1..], separator, k - 1);
      assert pieces[1..][k - 1] == pieces[k];
    }
  }

  /** A line with the four `:`-fields `a`, `b`, `n`, `x`, where `x` is cut off by a further `:` or by the end. */
  lemma SplitColons(a: string, b: string, n: string, x: string, tail: string)
    requires ':' !in a && ':' !in b && ':' !in n && ':' !in x
    requires tail == [] || tail[0] == ':'
    ensures var elems := Split(a + ":" + b + ":" + n + ":" + x + tail, ':');
      |elems| >= 4 && elems[0] == a && elems[1] == b && elems[2] == n && elems[3] == x
  {
    var r3 := x + tail;
    var r2 := n + [':'] + r3;
    var r1 := b + [':'] + r2;
    assert a + ":" + b + ":" + n + ":" + x + tail == a + [':'] + r1;
    SplitFirst(a, ':', r1);
    SplitFirst(b, ':', r2);
    SplitFirst(n, ':', r3);
    if tail == [] {
      assert r3 == x;
      SplitNone(x, ':');
    } else {
      assert r3 == x + [':'] + tail[1..];
      SplitFirst(x, ':', tail[1..]);
    }
  }

  /** The fourth field `pre(id)msg`: the id sits between the parentheses, the message after them. */
  lemma SplitParentheses(pre: string, id: string, msg: string)
    requires '(' !in pre && '(' !in id && '(' !in msg && ')' !in id && ')' !in msg
    ensures Split(pre + "(" + id + ")" + msg, '(') == [pre, id + ")" + msg]
    ensures Split(id + ")" + msg, ')') == [id, msg]
  {
    var body := id + ")" + msg;
    assert pre + "(" + id + ")" + msg == pre + ['('] + body;
    assert '(' !in body;
    SplitFirst(pre, '(', body);
    SplitNone(body, '(');
    assert body == id + [')'] + msg;
    SplitFirst(id, ')', msg);
    SplitNone(msg, ')');
  }

  /**
   * A line `a:b:n:pre(id)msg` followed by nothing or by another `:` becomes
   * the issue on file `a:b`, line n, rule `vera++.id`, message `msg`.
   */
  lemma ParseWellFormedLine(a: string, b: string, n: string, pre: string, id: string, msg: string, tail: string)
    requires ':' !in a && ':' !in b && ':' !in n && ':' !in pre && ':' !in id && ':' !in msg
    requires '(' !in pre && '(' !in id && '(' !in msg && ')' !in id && ')' !in msg
    requires tail == [] || tail[0] == ':'
    ensures ParseLine(a + ":" + b + ":" + n + ":" + pre + "(" + id + ")" + msg + tail) == match ParseInt32(n)
      case None => None
      case Some(v) => Some(NewIssue(v, msg, SKey + "." + id, a + ":" + b))
  {
    var x := pre + "(" + id + ")" + msg;
    assert ':' !in x;
    assert a + ":" + b + ":" + n + ":" + pre + "(" + id + ")" + msg + tail == a + ":" + b + ":" + n + ":" + x + tail;
    SplitColons(a, b, n, x, tail);
    SplitParentheses(pre, id, msg);
  }

  /** Fewer than three `:` leave no fourth field, so the line is skipped. */
  lemma SkipsFewColons(line: string)
    requires CountChar(line, ':') < 3
    ensures ParseLine(line) == None
  {
    SplitJoin(line, ':');
  }

  /** A fourth field without `(` gives no id, so the line is skipped. */
  lemma SkipsWithoutParenthesis(line: string)
    requires |Split(line, ':')| >= 4 && '(' !in Split(line, ':')[3]
    ensures ParseLine(line) == None
  {
    SplitNone(Split(line, ':')[3], '(');
  }

  function LineParser(): string -> Option<Issue> {
    (line: string) => ParseLine(line)
  }

  /** The issues of all lines that parse, in line order; a bad line never stops the others. */
  method GetViolations(lines: seq<string>) returns (violations: seq<Issue>)
    ensures violations == FilterMap(lines, LineParser())
    ensures |violations| <= |lines|
  {
    violations := [];
    if |lines| == 0 {
      return;
    }
    for i := 0 to |lines|
      invariant violations == FilterMap(lines[..i], LineParser())
    {
      FilterMapSnoc(lines[..i], lines[i], LineParser());
      assert lines[..i + 1] == lines[..i] + [lines[i]];
      var entry := ParseLine(lines[i]);
      if entry.Some? {
        violations := violations + [entry.value];
      }
    }
    assert lines[..|lines|] == lines;
  }

  /** The executable and arguments the sensor launches, read from the options. */
  function GetCommand(options: Dict): (r: Result<string>)
    ensures r.Ok? <==> ContainsKey(options, "VeraExecutable")
    ensures r.Ok? ==> Entry("VeraExecutable", r.value) in options
  {
    Index(options, "VeraExecutable")
  }

  function GetArguments(options: Dict): (r: Result<string>)
    ensures r.Ok? <==> ContainsKey(options, "VeraArguments")
    ensures r.Ok? ==> Entry("VeraArguments", r.value) in options
  {
    Index(options, "VeraArguments")
  }
}
