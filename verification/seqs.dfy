/**
 * Filtering while mapping (LINQ `Where` + `Select`, or a loop that adds an
 * element only when a step succeeds), with the facts every caller needs:
 * it keeps order, composes over concatenation, and each output comes from
 * exactly one input.
 */
module Seqs {
  import opened Wrappers

  /** Concatenation is associative; Dafny's sequence axioms need the step spelled out. */
  lemma Assoc<T>(a: seq<T>, b: seq<T>, c: seq<T>)
    ensures a + b + c == a + (b + c)
  {
  }

  /** Appending an optional element to a buffer that holds `base` followed by `acc`. */
  lemma AppendOption<T>(base: seq<T>, acc: seq<T>, entry: Option<T>)
    ensures base + acc + (if entry.Some? then [entry.value] else []) == base + (if entry.Some? then acc + [entry.value] else acc)
  {
  }

  /** The outputs of `f` that are present, in input order. */
  function FilterMap<T, U>(xs: seq<T>, f: T -> Option<U>): (r: seq<U>)
    ensures |r| <= |xs|
    decreases |xs|
  {
    if |xs| == 0 then []
    else
      var last := f(xs[|xs| - 1]);
      FilterMap(xs[..|xs| - 1], f) + (if last.Some? then [last.value] else [])
  }

  /** One more input adds its output, if it has one, at the end. */
  lemma FilterMapSnoc<T, U>(xs: seq<T>, x: T, f: T -> Option<U>)
    ensures FilterMap(xs + [x], f) == FilterMap(xs, f) + (if f(x).Some? then [f(x).value] else [])
  {
    assert (xs + [x])[..|xs|] == xs;
  }

  /** One step of a loop over a prefix of `xs`: the next element appends its image, if it has one. */
  lemma FilterMapStep<T, U>(xs: seq<T>, i: nat, f: T -> Option<U>, acc: seq<U>, entry: Option<U>)
    requires i < |xs| && acc == FilterMap(xs[..i], f) && entry == f(xs[i])
    ensures FilterMap(xs[..i + 1], f) == if entry.Some? then acc + [entry.value] else acc
  {
    assert xs[..i + 1] == xs[..i] + [xs[i]];
    FilterMapSnoc(xs[..i], xs[i], f);
  }

  lemma {:induction false} FilterMapAppend<T, U>(xs: seq<T>, ys: seq<T>, f: T -> Option<U>)
    ensures FilterMap(xs + ys, f) == FilterMap(xs, f) + FilterMap(ys, f)
    decreases |ys|
  {
    if |ys| == 0 {
      assert xs + ys == xs;
    } else {
      var ys' := ys[..|ys| - 1];
      assert (xs + ys)[..|xs + ys| - 1] == xs + ys';
      assert (xs + ys)[|xs + ys| - 1] == ys[|ys| - 1];
      FilterMapAppend(xs, ys', f);
    }
  }

  /** A value is produced exactly when some input maps to it. */
  lemma {:induction false} FilterMapMember<T, U>(xs: seq<T>, f: T -> Option<U>, y: U)
    ensures y in FilterMap(xs, f) <==> exists i :: 0 <= i < |xs| && f(xs[i]) == Some(y)
    decreases |xs|
  {
    if |xs| > 0 {
      var init := xs[..|xs| - 1];
      FilterMapMember(init, f, y);
      if exists i :: 0 <= i < |xs| && f(xs[i]) == Some(y) {
        var i :| 0 <= i < |xs| && f(xs[i]) == Some(y);
        if i < |xs| - 1 {
          assert init[i] == xs[i];
        }
      }
      if exists i :: 0 <= i < |init| && f(init[i]) == Some(y) {
        var i :| 0 <= i < |init| && f(init[i]) == Some(y);
        assert xs[i] == init[i];
      }
    }
  }

  /** When every input maps to a value, nothing is dropped. */
  lemma {:induction false} FilterMapTotal<T, U>(xs: seq<T>, f: T -> Option<U>)
    requires forall i :: 0 <= i < |xs| ==> f(xs[i]).Some?
    ensures |FilterMap(xs, f)| == |xs|
    decreases |xs|
  {
    if |xs| > 0 {
      var init := xs[..|xs| - 1];
      assert forall i :: 0 <= i < |init| ==> init[i] == xs[i];
      FilterMapTotal(init, f);
    }
  }

  /**
   * `idx` lists, in increasing order, the input positions the outputs come
   * from: output k is f(xs[idx[k]]), and every input that maps to a value
   * appears in `idx`.
   */
  ghost predicate IsOriginMap<T, U>(xs: seq<T>, f: T -> Option<U>, idx: seq<int>) {
    && |idx| == |FilterMap(xs, f)|
    && OriginsProduce(xs, f, idx, FilterMap(xs, f))
    && Increasing(idx)
    && OriginsComplete(xs, f, idx)
  }

  ghost predicate OriginsProduce<T, U>(xs: seq<T>, f: T -> Option<U>, idx: seq<int>, r: seq<U>)
    requires |idx| == |r|
  {
    forall k :: 0 <= k < |idx| ==> 0 <= idx[k] < |xs| && f(xs[idx[k]]) == Some(r[k])
  }

  ghost predicate Increasing(idx: seq<int>) {
    forall k, l :: 0 <= k < l < |idx| ==> idx[k] < idx[l]
  }

  ghost predicate OriginsComplete<T, U>(xs: seq<T>, f: T -> Option<U>, idx: seq<int>) {
    forall i :: 0 <= i < |xs| && f(xs[i]).Some? ==> i in idx
  }

  /** Each output comes from exactly one input, in input order. */
  lemma {:induction false} FilterMapOrigins<T, U>(xs: seq<T>, f: T -> Option<U>)
    ensures exists idx :: IsOriginMap(xs, f, idx)
    decreases |xs|
  {
    if |xs| == 0 {
      assert IsOriginMap(xs, f, []);
    } else {
      var n := |xs| - 1;
      var init := xs[..n];
      FilterMapOrigins(init, f);
      var idx :| IsOriginMap(init, f, idx);
      assert forall i :: 0 <= i < n ==> init[i] == xs[i];
      var idx' := if f(xs[n]).Some? then idx + [n] else idx;
      OriginsExtend(xs, f, idx);
      assert IsOriginMap(xs, f, idx');
    }
  }

  lemma OriginsExtend<T, U>(xs: seq<T>, f: T -> Option<U>, idx: seq<int>)
    requires |xs| > 0 && IsOriginMap(xs[..|xs| - 1], f, idx)
    ensures IsOriginMap(xs, f, if f(xs[|xs| - 1]).Some? then idx + [|xs| - 1] else idx)
  {
    var n := |xs| - 1;
    var init := xs[..n];
    var r0 := FilterMap(init, f);
    var r := FilterMap(xs, f);
    var idx' := if f(xs[n]).Some? then idx + [n] else idx;
    assert r == r0 + (if f(xs[n]).Some? then [f(xs[n]).value] else []);
    assert OriginsProduce(xs, f, idx', r) by {
      forall k | 0 <= k < |idx'|
        ensures 0 <= idx'[k] < |xs| && f(xs[idx'[k]]) == Some(r[k])
      {
        if k < |idx| {
          assert idx'[k] == idx[k] && r[k] == r0[k];
          assert xs[idx[k]] == init[idx[k]];
        }
      }
    }
    assert Increasing(idx') by {
      forall k, l | 0 <= k < l < |idx'|
        ensures idx'[k] < idx'[l]
      {
        if l < |idx| {
          assert idx'[k] == idx[k] && idx'[l] == idx[l];
        } else {
          assert idx'[k] == idx[k];
        }
      }
    }
    assert OriginsComplete(xs, f, idx') by {
      forall i | 0 <= i < |xs| && f(xs[i]).Some?
        ensures i in idx'
      {
        if i < n {
          assert init[i] == xs[i];
          assert i in idx;
        }
      }
    }
  }

  // ---------------------------------------------------------------------------
  // A loop inside a try block: each element is handled in turn, and the first
  // exception ends the loop while what was added before it stays.
  // ---------------------------------------------------------------------------

  /** The position of the first element whose handling throws, or the length when none does. */
  function FirstThrow<T, U>(xs: seq<T>, f: T -> Result<Option<U>>): (n: nat)
    ensures n <= |xs|
    ensures forall i :: 0 <= i < n ==> f(xs[i]).Ok?
    ensures n < |xs| ==> f(xs[n]).Throws?
    decreases |xs|
  {
    if |xs| == 0 then 0
    else if f(xs[0]).Throws? then 0
    else
      var n := 1 + FirstThrow(xs[1..], f);
      assert forall i :: 1 <= i < n ==> xs[i] == xs[1..][i - 1];
      n
  }

  /** The two properties of FirstThrow determine it. */
  lemma FirstThrowUnique<T, U>(xs: seq<T>, f: T -> Result<Option<U>>, n: nat)
    requires n <= |xs|
    requires forall i :: 0 <= i < n ==> f(xs[i]).Ok?
    requires n < |xs| ==> f(xs[n]).Throws?
    ensures FirstThrow(xs, f) == n
  {
  }

  /** What handling one element adds; an exception adds nothing. */
  function Added<T, U>(f: T -> Result<Option<U>>): T -> Option<U> {
    (x: T) => if f(x).Ok? then f(x).value else None
  }

  /** What the loop has added when it ends, normally or by the first exception. */
  function UntilThrow<T, U>(xs: seq<T>, f: T -> Result<Option<U>>): seq<U> {
    FilterMap(xs[..FirstThrow(xs, f)], Added(f))
  }

  /** A loop that stops at the first exception, or at the end, has added UntilThrow. */
  lemma UntilThrowAt<T, U>(xs: seq<T>, f: T -> Result<Option<U>>, n: nat)
    requires n <= |xs|
    requires forall i :: 0 <= i < n ==> f(xs[i]).Ok?
    requires n < |xs| ==> f(xs[n]).Throws?
    ensures UntilThrow(xs, f) == FilterMap(xs[..n], Added(f))
  {
    FirstThrowUnique(xs, f, n);
  }

  /** An output is there exactly when an element before the first exception produced it. */
  lemma UntilThrowMember<T, U>(xs: seq<T>, f: T -> Result<Option<U>>, y: U)
    ensures y in UntilThrow(xs, f) <==> exists i :: 0 <= i < FirstThrow(xs, f) && f(xs[i]) == Ok(Some(y))
  {
    var n := FirstThrow(xs, f);
    var prefix := xs[..n];
    FilterMapMember(prefix, Added(f), y);
    if exists i :: 0 <= i < n && f(xs[i]) == Ok(Some(y)) {
      var i :| 0 <= i < n && f(xs[i]) == Ok(Some(y));
      assert prefix[i] == xs[i];
      assert Added(f)(prefix[i]) == Some(y);
    }
  }

  /** Without exceptions every element is handled. */
  lemma UntilThrowTotal<T, U>(xs: seq<T>, f: T -> Result<Option<U>>)
    requires forall i :: 0 <= i < |xs| ==> f(xs[i]).Ok?
    ensures UntilThrow(xs, f) == FilterMap(xs, Added(f))
  {
    FirstThrowUnique(xs, f, |xs|);
    assert xs[..|xs|] == xs;
  }

  /** One step of the loop: handling element i, which does not throw. */
  lemma UntilThrowStep<T, U>(xs: seq<T>, f: T -> Result<Option<U>>, i: nat)
    requires i < |xs| && f(xs[i]).Ok?
    ensures FilterMap(xs[..i + 1], Added(f)) == FilterMap(xs[..i], Added(f)) + (if f(xs[i]).value.Some? then [f(xs[i]).value.value] else [])
  {
    FilterMapSnoc(xs[..i], xs[i], Added(f));
    assert xs[..i + 1] == xs[..i] + [xs[i]];
  }
}
