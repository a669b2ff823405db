/**
 * Dictionary<string, string> as an association list in insertion order,
 * which is the order in which a dictionary that is only ever added to
 * enumerates its entries.
 */
module Dictionaries {
  import opened Wrappers

  datatype Entry = Entry(key: string, value: string)

  type Dict = seq<Entry>

  predicate ContainsKey(d: Dict, key: string) {
    exists i :: 0 <= i < |d| && d[i].key == key
  }

  ghost predicate UniqueKeys(d: Dict) {
    forall i, j :: 0 <= i < j < |d| ==> d[i].key != d[j].key
  }

  /** The value stored under `key`, if any. */
  function Get(d: Dict, key: string): (r: Option<string>)
    ensures r.Some? <==> ContainsKey(d, key)
    ensures r.Some? ==> exists i :: 0 <= i < |d| && d[i] == Entry(key, r.value)
    decreases |d|
  {
    if |d| == 0 then None
    else if d[0].key == key then Some(d[0].value)
    else
      var r := Get(d[1..], key);
      assert forall i :: 1 <= i < |d| ==> d[i] == d[1..][i - 1];
      r
  }

  /** The dictionary indexer: a missing key throws KeyNotFoundException. */
  function Index(d: Dict, key: string): (r: Result<string>)
    ensures r.Ok? <==> ContainsKey(d, key)
    ensures r.Throws? ==> r.exception == KeyNotFound(key)
  {
    match Get(d, key)
    case None => Throws(KeyNotFound(key))
    case Some(v) => Ok(v)
  }

  /** Dictionary.Add: a key already present throws ArgumentException. */
  function Add(d: Dict, key: string, value: string): (r: Result<Dict>)
    ensures r.Ok? <==> !ContainsKey(d, key)
    ensures r.Ok? ==> r.value == d + [Entry(key, value)]
  {
    if ContainsKey(d, key) then Throws(DuplicateKey(key)) else Ok(d + [Entry(key, value)])
  }

  /** In a dictionary with unique keys, the entry at `i` is what `Get` finds. */
  lemma {:induction false} GetUnique(d: Dict, i: int)
    requires UniqueKeys(d) && 0 <= i < |d|
    ensures Get(d, d[i].key) == Some(d[i].value)
    decreases i
  {
    if i > 0 {
      assert d[0].key != d[i].key;
      assert UniqueKeys(d[1..]) by {
        forall a, b | 0 <= a < b < |d| - 1
          ensures d[1..][a].key != d[1..][b].key
        {
          assert d[1..][a] == d[a + 1] && d[1..][b] == d[b + 1];
        }
      }
      GetUnique(d[1..], i - 1);
    }
  }

  /** A lookup after appending an entry with a fresh key. */
  lemma GetAfterAppend(d: Dict, e: Entry, key: string)
    ensures Get(d + [e], key) == if ContainsKey(d, key) then Get(d, key) else if e.key == key then Some(e.value) else None
  {
    var d' := d + [e];
    if ContainsKey(d, key) {
      var i :| 0 <= i < |d| && d[i].key == key;
      assert d'[i].key == key;
      GetPrefix(d, [e], key);
    } else if e.key == key {
      assert d'[|d|].key == key;
      var r := Get(d', key);
      var i :| 0 <= i < |d'| && d'[i] == Entry(key, r.value);
      assert i == |d|;
    }
  }

  /** Entries appended after a key's entry do not change what `Get` finds. */
  lemma {:induction false} GetPrefix(d: Dict, more: Dict, key: string)
    requires ContainsKey(d, key)
    ensures Get(d + more, key) == Get(d, key)
    decreases |d|
  {
    if d[0].key != key {
      var i :| 0 <= i < |d| && d[i].key == key;
      assert i > 0 && d[1..][i - 1].key == key;
      assert (d + more)[1..] == d[1..] + more;
      GetPrefix(d[1..], more, key);
    }
  }
}
