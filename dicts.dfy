/**
 * Python dictionaries with string keys.  The engine iterates over `params`,
 * `variables` and `prompts` when it writes them out, and Python keeps the
 * insertion order, so a dictionary is a sequence of key/value pairs: an
 * assignment to an existing key keeps its position, a new key goes last.
 */
module Dicts {
  import opened Wrappers

  type Dict<V> = seq<(string, V)>

  /** d[k], or None when k is not a key (the first pair with key k wins). */
  function Get<V>(d: Dict<V>, k: string): Option<V>
  {
    if d == [] then None
    else if d[0].0 == k then Some(d[0].1)
    else Get(d[1..], k)
  }

  predicate HasKey<V>(d: Dict<V>, k: string) {
    Get(d, k).Some?
  }

  function Keys<V>(d: Dict<V>): (ks: seq<string>)
    ensures |ks| == |d|
    ensures forall i :: 0 <= i < |d| ==> ks[i] == d[i].0
  {
    if d == [] then [] else [d[0].0] + Keys(d[1..])
  }

  /** No key appears twice. */
  predicate UniqueKeys<V>(d: Dict<V>) {
    forall i, j :: 0 <= i < j < |d| ==> d[i].0 != d[j].0
  }

  /** d[k] = v */
  function Put<V>(d: Dict<V>, k: string, v: V): (r: Dict<V>)
  {
    if d == [] then [(k, v)]
    else if d[0].0 == k then [(k, v)] + d[1..]
    else [d[0]] + Put(d[1..], k, v)
  }

  lemma {:induction false} GetPutSame<V>(d: Dict<V>, k: string, v: V)
    ensures Get(Put(d, k, v), k) == Some(v)
  {
    if d != [] && d[0].0 != k {
      GetPutSame(d[1..], k, v);
    }
  }

  lemma {:induction false} GetPutOther<V>(d: Dict<V>, k: string, v: V, k': string)
    requires k' != k
    ensures Get(Put(d, k, v), k') == Get(d, k')
  {
    if d != [] && d[0].0 != k {
      GetPutOther(d[1..], k, v, k');
    }
  }

  /** An assignment keeps the position of an existing key and appends a new one. */
  lemma {:induction false} PutKeys<V>(d: Dict<V>, k: string, v: V)
    ensures Keys(Put(d, k, v)) == if HasKey(d, k) then Keys(d) else Keys(d) + [k]
  {
    if d != [] && d[0].0 != k {
      PutKeys(d[1..], k, v);
    }
  }

  lemma {:induction false} PutKeepsUnique<V>(d: Dict<V>, k: string, v: V)
    requires UniqueKeys(d)
    ensures UniqueKeys(Put(d, k, v))
  {
    PutKeys(d, k, v);
    if d != [] && d[0].0 != k {
      PutKeepsUnique(d[1..], k, v);
      var r := Put(d, k, v);
      assert Keys(r) == [d[0].0] + Keys(Put(d[1..], k, v));
      forall j | 0 < j < |r|
        ensures r[0].0 != r[j].0
      {
        assert r[j].0 in Keys(Put(d[1..], k, v));
        PutKeysIn(d[1..], k, v, r[j].0);
      }
    }
  }

  /** Every key after an assignment was a key before or is the assigned one. */
  lemma {:induction false} PutKeysIn<V>(d: Dict<V>, k: string, v: V, x: string)
    requires x in Keys(Put(d, k, v))
    ensures x == k || x in Keys(d)
  {
    PutKeys(d, k, v);
  }

  lemma {:induction false} GetIsPair<V>(d: Dict<V>, k: string)
    requires HasKey(d, k)
    ensures exists i :: 0 <= i < |d| && d[i] == (k, Get(d, k).value)
  {
    if d[0].0 != k {
      GetIsPair(d[1..], k);
      var i :| 0 <= i < |d[1..]| && d[1..][i] == (k, Get(d[1..], k).value);
      assert d[i + 1] == (k, Get(d, k).value);
    }
  }

  /** Assigns every pair in order, as a loop of d[k] = v does. */
  function PutAll<V>(d: Dict<V>, pairs: Dict<V>): Dict<V>
    decreases |pairs|
  {
    if pairs == [] then d else PutAll(Put(d, pairs[0].0, pairs[0].1), pairs[1..])
  }

  /** A key that no pair carries is not a key. */
  lemma {:induction false} KeyAbsent<V>(d: Dict<V>, k: string)
    requires forall i :: 0 <= i < |d| ==> d[i].0 != k
    ensures !HasKey(d, k)
  {
    if d != [] {
      KeyAbsent(d[1..], k);
    }
  }

  /** A new key is appended at the end. */
  lemma {:induction false} PutNew<V>(d: Dict<V>, k: string, v: V)
    requires !HasKey(d, k)
    ensures Put(d, k, v) == d + [(k, v)]
  {
    if d != [] {
      PutNew(d[1..], k, v);
      assert d == [d[0]] + d[1..];
    }
  }

  /** Assigning pairs whose keys are all new and distinct appends them, so
      copying a dictionary into an empty one gives the same dictionary. */
  lemma {:induction false} PutAllFresh<V>(d: Dict<V>, pairs: Dict<V>)
    requires UniqueKeys(d + pairs)
    ensures PutAll(d, pairs) == d + pairs
    decreases |pairs|
  {
    if pairs != [] {
      var k := pairs[0].0;
      forall i | 0 <= i < |d|
        ensures d[i].0 != k
      {
        assert (d + pairs)[i] == d[i] && (d + pairs)[|d|] == pairs[0];
      }
      KeyAbsent(d, k);
      PutNew(d, k, pairs[0].1);
      assert d + pairs == (d + [pairs[0]]) + pairs[1..];
      PutAllFresh(d + [pairs[0]], pairs[1..]);
    }
  }
}
