/**
 * The .NET string operations the plugin relies on, over `seq<char>`:
 * ordinal prefix, suffix and substring tests, String.Replace, String.Split,
 * String.Trim, ASCII case folding and Convert.ToInt32.
 */
module Strings {
  import opened Wrappers

  predicate StartsWith(s: string, prefix: string) {
    |prefix| <= |s| && s[..|prefix|] == prefix
  }

  predicate EndsWith(s: string, suffix: string) {
    |suffix| <= |s| && s[|s| - |suffix|..] == suffix
  }

  /** Appending to a concatenation appends to its right part; appending nothing changes nothing. */
  lemma Reassociate(a: string, b: string, c: string)
    ensures a + b + c == a + (b + c)
    ensures c == [] ==> a + b + c == a + b && b + c == b
  {
  }

  /** A concatenation starts with its left part and ends with its right part. */
  lemma Affixes(a: string, b: string)
    ensures StartsWith(a + b, a) && EndsWith(a + b, b)
  {
    assert (a + b)[..|a|] == a;
    assert (a + b)[|a|..] == b;
  }

  /** String.Contains: `part` occurs in `s` at some position. */
  predicate Contains(s: string, part: string)
    decreases |s|
  {
    StartsWith(s, part) || (|s| > 0 && Contains(s[1..], part))
  }

  lemma {:induction false} ContainsAt(s: string, part: string, k: nat)
    requires k + |part| <= |s| && s[k..k + |part|] == part
    ensures Contains(s, part)
    decreases k
  {
    if k > 0 {
      assert s[1..][k - 1..k - 1 + |part|] == s[k..k + |part|];
      ContainsAt(s[1..], part, k - 1);
    }
  }

  /** A one-character substring occurs exactly when the character does. */
  lemma {:induction false} ContainsChar(s: string, c: char)
    ensures Contains(s, [c]) <==> c in s
    decreases |s|
  {
    if |s| > 0 {
      ContainsChar(s[1..], c);
      assert s == [s[0]] + s[1..];
    }
  }

  // ---------------------------------------------------------------------------
  // String.Replace(oldValue, newValue): every occurrence, scanned left to right
  // without overlap (an empty oldValue throws in .NET and is never passed).
  // ---------------------------------------------------------------------------

  function ReplaceAll(s: string, pattern: string, replacement: string): (r: string)
    requires |pattern| > 0
    ensures !Contains(s, pattern) ==> r == s
    decreases |s|
  {
    if StartsWith(s, pattern) then replacement + ReplaceAll(s[|pattern|..], pattern, replacement)
    else if |s| == 0 then s
    else [s[0]] + ReplaceAll(s[1..], pattern, replacement)
  }

  /** An occurrence at the very start is replaced, and the scan resumes after it. */
  lemma ReplaceAllLeading(pattern: string, s: string, replacement: string)
    requires |pattern| > 0
    ensures ReplaceAll(pattern + s, pattern, replacement) == replacement + ReplaceAll(s, pattern, replacement)
  {
    assert (pattern + s)[..|pattern|] == pattern;
    assert (pattern + s)[|pattern|..] == s;
  }

  /** Replacing a single character leaves none of it behind when the replacement has none. */
  lemma {:induction false} ReplaceCharRemovesAll(s: string, c: char, replacement: string)
    requires c !in replacement
    ensures c !in ReplaceAll(s, [c], replacement)
    decreases |s|
  {
    if |s| > 0 {
      ReplaceCharRemovesAll(s[1..], c, replacement);
    }
  }

  /** Deleting occurrences never introduces a character that was not there. */
  lemma {:induction false} ReplaceAllDeletes(s: string, pattern: string, ch: char)
    requires |pattern| > 0
    ensures ch in ReplaceAll(s, pattern, "") ==> ch in s
    decreases |s|
  {
    if StartsWith(s, pattern) {
      ReplaceAllDeletes(s[|pattern|..], pattern, ch);
      assert ReplaceAll(s, pattern, "") == ReplaceAll(s[|pattern|..], pattern, "");
    } else if |s| > 0 {
      ReplaceAllDeletes(s[1..], pattern, ch);
    }
  }

  /**
   * An occurrence preceded by text in which no occurrence starts is the
   * first one the scan meets, wherever it sits: it is replaced too.
   */
  lemma {:induction false} ReplaceAllAfter(a: string, pattern: string, b: string, replacement: string)
    requires |pattern| > 0
    requires forall i :: 0 <= i < |a| ==> !StartsWith((a + pattern + b)[i..], pattern)
    ensures ReplaceAll(a + pattern + b, pattern, replacement) == a + replacement + ReplaceAll(b, pattern, replacement)
    decreases |a|
  {
    var s := a + pattern + b;
    if |a| == 0 {
      assert s == pattern + b;
      ReplaceAllLeading(pattern, b, replacement);
    } else {
      var t := a[1..] + pattern + b;
      assert s[0..] == s;
      assert !StartsWith(s, pattern);
      assert s[1..] == t;
      assert ReplaceAll(s, pattern, replacement) == [s[0]] + ReplaceAll(t, pattern, replacement);
      forall i | 0 <= i < |a[1..]|
        ensures !StartsWith(t[i..], pattern)
      {
        assert t[i..] == s[i + 1..];
      }
      ReplaceAllAfter(a[1..], pattern, b, replacement);
      assert s[0] == a[0];
      ConsAssoc(a, replacement, ReplaceAll(b, pattern, replacement));
    }
  }

  /** Putting the first character back in front of the rest of `a`, then `x` and `y`. */
  lemma ConsAssoc(a: string, x: string, y: string)
    requires |a| > 0
    ensures [a[0]] + (a[1..] + x + y) == a + x + y
  {
    assert [a[0]] + a[1..] == a;
  }

  /** Deleting a pattern that occurs once, with no occurrence overlapping it from the left. */
  lemma DeleteSingleOccurrence(a: string, pattern: string, b: string)
    requires |pattern| > 0
    requires forall i :: 0 <= i < |a| ==> !StartsWith((a + pattern + b)[i..], pattern)
    requires !Contains(b, pattern)
    ensures ReplaceAll(a + pattern + b, pattern, "") == a + b
  {
    ReplaceAllAfter(a, pattern, b, "");
    DeleteNothing(a, pattern, b);
  }

  lemma DeleteNothing(a: string, pattern: string, b: string)
    requires |pattern| > 0
    requires !Contains(b, pattern)
    ensures a + "" + ReplaceAll(b, pattern, "") == a + b
  {
    var r := ReplaceAll(b, pattern, "");
    assert r == b;
    EmptyMiddle(a, r);
  }

  /** Nothing between two strings adds nothing. */
  lemma EmptyMiddle(a: string, b: string)
    ensures a + "" + b == a + b
  {
    assert a + "" == a;
  }

  /** Replacing one character by another changes exactly the positions that held it. */
  lemma {:induction false} ReplaceCharPointwise(s: string, c: char, d: char)
    ensures |ReplaceAll(s, [c], [d])| == |s|
    ensures forall i :: 0 <= i < |s| ==> ReplaceAll(s, [c], [d])[i] == if s[i] == c then d else s[i]
    decreases |s|
  {
    if |s| > 0 {
      ReplaceCharPointwise(s[1..], c, d);
      var rest := ReplaceAll(s[1..], [c], [d]);
      assert StartsWith(s, [c]) <==> s[0] == c;
      assert ReplaceAll(s, [c], [d]) == [if s[0] == c then d else s[0]] + rest;
    }
  }

  /** Every character of a substring occurs in the string. */
  lemma {:induction false} ContainsChars(s: string, part: string)
    ensures Contains(s, part) ==> forall c :: c in part ==> c in s
    decreases |s|
  {
    if !Contains(s, part) {
    } else if !StartsWith(s, part) {
      ContainsChars(s[1..], part);
    } else {
      assert forall c :: c in part ==> c in s[..|part|];
    }
  }

  /** A single-character replacement acts on each part of a concatenation separately. */
  lemma {:induction false} ReplaceCharConcat(a: string, b: string, c: char, replacement: string)
    ensures ReplaceAll(a + b, [c], replacement) == ReplaceAll(a, [c], replacement) + ReplaceAll(b, [c], replacement)
    decreases |a|
  {
    if |a| > 0 {
      assert (a + b)[1..] == a[1..] + b;
      assert (a + b)[..1] == a[..1];
      ReplaceCharConcat(a[1..], b, c, replacement);
    } else {
      assert a + b == b;
    }
  }

  // ---------------------------------------------------------------------------
  // String.Split. At each position the first separator (in array order) that
  // starts there cuts the string; empty pieces are kept.
  // ---------------------------------------------------------------------------

  predicate NonEmptySeparators(separators: seq<string>) {
    forall k :: 0 <= k < |separators| ==> |separators[k]| > 0
  }

  /** Length of the first separator `s` starts with, 0 when none does. */
  function SeparatorAt(s: string, separators: seq<string>): (n: nat)
    requires NonEmptySeparators(separators)
    ensures n <= |s|
    ensures n > 0 <==> exists k :: 0 <= k < |separators| && StartsWith(s, separators[k])
    decreases |separators|
  {
    if |separators| == 0 then 0
    else if StartsWith(s, separators[0]) then |separators[0]|
    else
      var n := SeparatorAt(s, separators[1..]);
      assert forall k :: 1 <= k < |separators| ==> separators[k] == separators[1..][k - 1];
      n
  }

  function SplitOnAny(s: string, separators: seq<string>): (pieces: seq<string>)
    requires NonEmptySeparators(separators)
    ensures |pieces| >= 1
    decreases |s|
  {
    if |s| == 0 then [""]
    else
      var n := SeparatorAt(s, separators);
      if n > 0 then [""] + SplitOnAny(s[n..], separators)
      else
        var rest := SplitOnAny(s[1..], separators);
        [[s[0]] + rest[0]] + rest[1..]
  }

  /** String.Split(char). */
  function Split(s: string, c: char): (pieces: seq<string>)
    ensures |pieces| >= 1
  {
    SplitOnAny(s, [[c]])
  }

  /** StringSplitOptions.RemoveEmptyEntries. */
  function RemoveEmpty(pieces: seq<string>): (r: seq<string>)
    ensures forall k :: 0 <= k < |r| ==> r[k] != "" && r[k] in pieces
    ensures |r| <= |pieces|
    decreases |pieces|
  {
    if |pieces| == 0 then []
    else if pieces[0] == "" then RemoveEmpty(pieces[1..])
    else [pieces[0]] + RemoveEmpty(pieces[1..])
  }

  /** The pieces joined back with the separator (String.Join). */
  function Join(pieces: seq<string>, separator: string): string
    decreases |pieces|
  {
    if |pieces| == 0 then ""
    else if |pieces| == 1 then pieces[0]
    else pieces[0] + separator + Join(pieces[1..], separator)
  }

  function CountChar(s: string, c: char): nat
    decreases |s|
  {
    if |s| == 0 then 0 else (if s[0] == c then 1 else 0) + CountChar(s[1..], c)
  }

  /** A character occurs exactly when it is counted. */
  lemma {:induction false} CountCharIn(s: string, c: char)
    ensures CountChar(s, c) > 0 <==> c in s
    decreases |s|
  {
    if |s| > 0 {
      CountCharIn(s[1..], c);
      assert s == [s[0]] + s[1..];
    }
  }

  lemma SeparatorAtChar(s: string, c: char)
    ensures SeparatorAt(s, [[c]]) == (if |s| > 0 && s[0] == c then 1 else 0)
  {
    if |s| > 0 && s[0] == c {
      assert s[..1] == [c];
    }
  }

  /** Splitting on a character and joining with it gives the string back. */
  lemma {:induction false} SplitJoin(s: string, c: char)
    ensures Join(Split(s, c), [c]) == s
    ensures |Split(s, c)| == CountChar(s, c) + 1
    ensures forall k :: 0 <= k < |Split(s, c)| ==> c !in Split(s, c)[k]
    decreases |s|
  {
    if |s| > 0 {
      SeparatorAtChar(s, c);
      SplitJoin(s[1..], c);
      var rest := Split(s[1..], c);
      if s[0] == c {
        assert s[1..] == s[1..];
        assert Split(s, c) == [""] + rest;
        assert Join(Split(s, c), [c]) == "" + [c] + Join(rest, [c]);
        assert [c] + s[1..] == s;
      } else {
        assert Split(s, c) == [[s[0]] + rest[0]] + rest[1..];
        if |rest| > 1 {
          assert Join(rest, [c]) == rest[0] + [c] + Join(rest[1..], [c]);
          assert Join(Split(s, c), [c]) == ([s[0]] + rest[0]) + [c] + Join(rest[1..], [c]);
        }
        assert [s[0]] + s[1..] == s;
        forall k | 0 <= k < |Split(s, c)|
          ensures c !in Split(s, c)[k]
        {
          if k > 0 {
            assert Split(s, c)[k] == rest[k];
          }
        }
      }
    }
  }

  /** A piece without the separator splits to itself. */
  lemma {:induction false} SplitNone(a: string, c: char)
    requires c !in a
    ensures Split(a, c) == [a]
    decreases |a|
  {
    if |a| > 0 {
      SeparatorAtChar(a, c);
      SplitNone(a[1..], c);
      assert [a[0]] + a[1..] == a;
    }
  }

  /** The first separator closes the first piece. */
  lemma {:induction false} SplitFirst(a: string, c: char, b: string)
    requires c !in a
    ensures Split(a + [c] + b, c) == [a] + Split(b, c)
    decreases |a|
  {
    var s := a + [c] + b;
    SeparatorAtChar(s, c);
    if |a| == 0 {
      assert s[1..] == b;
    } else {
      assert s[1..] == a[1..] + [c] + b;
      SplitFirst(a[1..], c, b);
      assert [a[0]] + a[1..] == a;
    }
  }

  lemma SeparatorAtSingle(s: string, separator: string)
    requires |separator| > 0
    ensures SeparatorAt(s, [separator]) == if StartsWith(s, separator) then |separator| else 0
  {
  }

  /** A string that starts with the separator opens with an empty piece. */
  lemma SplitOnLead(s: string, separator: string)
    requires |separator| > 0 && StartsWith(s, separator)
    ensures SplitOnAny(s, [separator]) == [""] + SplitOnAny(s[|separator|..], [separator])
  {
    SeparatorAtSingle(s, separator);
  }

  /** A first character that opens no separator joins the first piece. */
  lemma SplitOnOther(s: string, separator: string)
    requires |separator| > 0 && |s| > 0 && !StartsWith(s, separator)
    ensures var rest := SplitOnAny(s[1..], [separator]);
      SplitOnAny(s, [separator]) == [[s[0]] + rest[0]] + rest[1..]
  {
    SeparatorAtSingle(s, separator);
  }

  /** A separator string cuts at its first occurrence; `rest` is what follows it. */
  lemma {:induction false} SplitOnFirst(s: string, separator: string, k: nat, rest: string)
    requires |separator| > 0
    requires k + |separator| <= |s| && s[k..k + |separator|] == separator && rest == s[k + |separator|..]
    requires forall i :: 0 <= i < k ==> !StartsWith(s[i..], separator)
    ensures SplitOnAny(s, [separator]) == [s[..k]] + SplitOnAny(rest, [separator])
    decreases k
  {
    if k == 0 {
      assert StartsWith(s, separator);
      SplitOnLead(s, separator);
      assert s[..0] == "";
    } else {
      var tail := s[1..];
      SplitOnFirstShift(s, separator, k, rest);
      SplitOnFirst(tail, separator, k - 1, rest);
      SplitOnOther(s, separator);
      JoinFirstPiece(s[0], tail[..k - 1], SplitOnAny(rest, [separator]), SplitOnAny(tail, [separator]));
    }
  }

  /** Dropping the first character moves the first occurrence one place to the left. */
  lemma SplitOnFirstShift(s: string, separator: string, k: nat, rest: string)
    requires |separator| > 0 && 0 < k
    requires k + |separator| <= |s| && s[k..k + |separator|] == separator && rest == s[k + |separator|..]
    requires forall i :: 0 <= i < k ==> !StartsWith(s[i..], separator)
    ensures !StartsWith(s, separator)
    ensures var tail := s[1..];
      && k - 1 + |separator| <= |tail| && tail[k - 1..k - 1 + |separator|] == separator
      && rest == tail[k - 1 + |separator|..]
      && (forall i :: 0 <= i < k - 1 ==> !StartsWith(tail[i..], separator))
      && [s[0]] + tail[..k - 1] == s[..k]
  {
    assert s[0..] == s;
    var tail := s[1..];
    forall i | 0 <= i < k - 1
      ensures !StartsWith(tail[i..], separator)
    {
      assert tail[i..] == s[i + 1..];
    }
    assert tail[k - 1..k - 1 + |separator|] == s[k..k + |separator|];
    assert tail[k - 1 + |separator|..] == rest;
    assert [s[0]] + tail[..k - 1] == s[..k];
  }

  /** A character put in front of the first piece of `[piece] + after`. */
  lemma JoinFirstPiece(c: char, piece: string, after: seq<string>, rest: seq<string>)
    requires rest == [piece] + after
    ensures [[c] + rest[0]] + rest[1..] == [[c] + piece] + after
  {
    assert rest[1..] == after;
  }

  /** A string that does not contain a substring holds it at no position. */
  lemma {:induction false} NotContainedAt(s: string, part: string, k: nat)
    requires k + |part| <= |s| && !Contains(s, part)
    ensures s[k..k + |part|] != part
    decreases k
  {
    if k == 0 {
      assert s[..|part|] == s[0..|part|];
    } else {
      assert s[1..][k - 1..k - 1 + |part|] == s[k..k + |part|];
      NotContainedAt(s[1..], part, k - 1);
    }
  }

  /** A string that does not contain the separator is a single piece. */
  lemma {:induction false} SplitOnAbsent(s: string, separator: string)
    requires |separator| > 0 && !Contains(s, separator)
    ensures SplitOnAny(s, [separator]) == [s]
    decreases |s|
  {
    if |s| > 0 {
      SeparatorAtSingle(s, separator);
      SplitOnAbsent(s[1..], separator);
      assert [s[0]] + s[1..] == s;
    }
  }

  // ---------------------------------------------------------------------------
  // String.Trim (Char.IsWhiteSpace) and the white space Convert.ToInt32 skips.
  // ---------------------------------------------------------------------------

  /** The characters NumberStyles.Integer allows around a number: U+0009 to U+000D and U+0020. */
  predicate IsNumberWhiteSpace(c: char) {
    c == ' ' || '\t' <= c <= '\r'
  }

  /** Char.IsWhiteSpace: the Unicode space, line and paragraph separators, U+0009 to U+000D and U+0085. */
  predicate IsWhiteSpace(c: char) {
    || IsNumberWhiteSpace(c)
    || c == '\U{0085}' || c == '\U{00A0}' || c == '\U{1680}'
    || '\U{2000}' <= c <= '\U{200A}'
    || c == '\U{2028}' || c == '\U{2029}' || c == '\U{202F}' || c == '\U{205F}' || c == '\U{3000}'
  }

  /** The two white space classes: Convert.ToInt32's, or String.Trim's. */
  datatype Spaces = NumberSpaces | AllSpaces

  predicate IsSpace(c: char, ws: Spaces) {
    if ws == NumberSpaces then IsNumberWhiteSpace(c) else IsWhiteSpace(c)
  }

  function TrimStartOf(s: string, ws: Spaces): (r: string)
    ensures |r| <= |s| && r == s[|s| - |r|..]
    ensures |r| > 0 ==> !IsSpace(r[0], ws)
    ensures forall i :: 0 <= i < |s| - |r| ==> IsSpace(s[i], ws)
    decreases |s|
  {
    if |s| > 0 && IsSpace(s[0], ws) then TrimStartOf(s[1..], ws) else s
  }

  function TrimEndOf(s: string, ws: Spaces): (r: string)
    ensures |r| <= |s| && r == s[..|r|]
    ensures |r| > 0 ==> !IsSpace(r[|r| - 1], ws)
    ensures forall i :: |r| <= i < |s| ==> IsSpace(s[i], ws)
    decreases |s|
  {
    if |s| > 0 && IsSpace(s[|s| - 1], ws) then TrimEndOf(s[..|s| - 1], ws) else s
  }

  function TrimOf(s: string, ws: Spaces): string {
    TrimEndOf(TrimStartOf(s, ws), ws)
  }

  /** String.Trim(). */
  function Trim(s: string): string {
    TrimOf(s, AllSpaces)
  }

  /** Trimming only drops characters: what remains was in the string. */
  lemma TrimKeepsChars(s: string, c: char)
    ensures c in Trim(s) ==> c in s
  {
    var t := TrimStartOf(s, AllSpaces);
    var r := TrimEndOf(t, AllSpaces);
    InsideKeepsChars(s, t, r, c);
  }

  /** A prefix of a suffix of `s` holds only characters of `s`. */
  lemma InsideKeepsChars(s: string, t: string, r: string, c: char)
    requires |t| <= |s| && t == s[|s| - |t|..]
    requires |r| <= |t| && r == t[..|r|]
    ensures c in r ==> c in s
  {
    if c in r {
      var k :| 0 <= k < |r| && r[k] == c;
      assert s[|s| - |t| + k] == c;
    }
  }

  /** Trimming removes white space only at the ends, so a string without it there is unchanged. */
  lemma TrimUnchanged(s: string, ws: Spaces)
    requires |s| > 0 ==> !IsSpace(s[0], ws) && !IsSpace(s[|s| - 1], ws)
    ensures TrimOf(s, ws) == s
  {
  }

  /** Trimming twice is trimming once. */
  lemma TrimIdempotent(s: string)
    ensures Trim(Trim(s)) == Trim(s)
  {
    var t := Trim(s);
    var u := TrimStartOf(s, AllSpaces);
    if |t| > 0 {
      assert t == u[..|t|];
      assert t[0] == u[0];
    }
    TrimUnchanged(t, AllSpaces);
  }

  // ---------------------------------------------------------------------------
  // Case folding (ASCII letters only) for the case-insensitive comparisons.
  // ---------------------------------------------------------------------------

  function Lower(c: char): char {
    if 'A' <= c <= 'Z' then (c as int + 32) as char else c
  }

  predicate EqualsIgnoreCase(a: string, b: string) {
    |a| == |b| && forall i :: 0 <= i < |a| ==> Lower(a[i]) == Lower(b[i])
  }

  predicate EndsWithIgnoreCase(s: string, suffix: string) {
    |suffix| <= |s| && EqualsIgnoreCase(s[|s| - |suffix|..], suffix)
  }

  // ---------------------------------------------------------------------------
  // Convert.ToInt32(string): NumberStyles.Integer, i.e. surrounding white
  // space, one optional sign, decimal digits, and the Int32 range.
  // ---------------------------------------------------------------------------

  const MinInt32: int := -0x8000_0000
  const MaxInt32: int := 0x7FFF_FFFF

  predicate IsDigit(c: char) {
    '0' <= c <= '9'
  }

  predicate AllDigits(s: string) {
    forall i :: 0 <= i < |s| ==> IsDigit(s[i])
  }

  function DigitsValue(s: string): nat
    requires AllDigits(s)
    decreases |s|
  {
    if |s| == 0 then 0 else DigitsValue(s[..|s| - 1]) * 10 + (s[|s| - 1] as int - '0' as int)
  }

  /** None stands for the FormatException or OverflowException Convert.ToInt32 throws. */
  function ParseInt32(s: string): (r: Option<int>)
    ensures r.Some? ==> MinInt32 <= r.value <= MaxInt32
  {
    var t := TrimOf(s, NumberSpaces);
    var signed := |t| > 0 && (t[0] == '-' || t[0] == '+');
    var digits := if signed then t[1..] else t;
    if |digits| == 0 || !AllDigits(digits) then None
    else
      var magnitude: int := DigitsValue(digits);
      var v: int := if signed && t[0] == '-' then -magnitude else magnitude;
      if MinInt32 <= v <= MaxInt32 then Some(v) else None
  }

  /** The decimal text of a natural number, as Int32.ToString writes it. */
  function DecimalString(n: nat): (s: string)
    ensures |s| > 0 && AllDigits(s)
    decreases n
  {
    if n < 10 then ['0' + n as char] else DecimalString(n / 10) + ['0' + (n % 10) as char]
  }

  lemma {:induction false} DecimalStringValue(n: nat)
    ensures DigitsValue(DecimalString(n)) == n
    decreases n
  {
    if n >= 10 {
      DecimalStringValue(n / 10);
      var s := DecimalString(n);
      assert s[..|s| - 1] == DecimalString(n / 10);
    }
  }

  /** Convert.ToInt32 reads back what Int32.ToString writes, for every Int32. */
  lemma ParseDecimalString(n: int)
    requires MinInt32 <= n <= MaxInt32
    ensures n >= 0 ==> ParseInt32(DecimalString(n)) == Some(n)
    ensures ParseInt32(if n >= 0 then DecimalString(n) else "-" + DecimalString(-n)) == Some(n)
  {
    var magnitude := if n >= 0 then n else -n;
    var digits := DecimalString(magnitude);
    DecimalStringValue(magnitude);
    var s := if n >= 0 then digits else "-" + digits;
    assert s[|s| - 1] == digits[|digits| - 1];
    TrimUnchanged(s, NumberSpaces);
    if n < 0 {
      assert s[1..] == digits;
    }
  }

  /** Convert.ToInt32 throws on the empty string. */
  lemma ParseEmpty()
    ensures ParseInt32("") == None
  {
  }
}
