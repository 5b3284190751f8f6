/**
 * Python dictionaries as the tracker uses them: string keys, values kept in
 * insertion order (the session report lists `sets_counts` in that order), a
 * lookup with a default (`d.get(k, 0)`) and an assignment that overwrites an
 * existing entry where it stands or appends a new one (`d[k] = v`).
 */
module Dicts {

  type Dict<V> = seq<(string, V)>

  /** The keys in insertion order (`list(d)`). */
  function Keys<V>(d: Dict<V>): (ks: seq<string>)
    ensures |ks| == |d|
  {
    if d == [] then [] else [d[0].0] + Keys(d[1..])
  }

  /** A dictionary never holds a key twice. */
  predicate Keyed<V>(d: Dict<V>) {
    d == [] || (d[0].0 !in Keys(d[1..]) && Keyed(d[1..]))
  }

  /** `d.get(k, default)` */
  function Get<V>(d: Dict<V>, k: string, default: V): V {
    if d == [] then default
    else if d[0].0 == k then d[0].1
    else Get(d[1..], k, default)
  }

  /** `d[k] = v`: overwrite the entry of `k` where it stands, or append one. */
  function Put<V>(d: Dict<V>, k: string, v: V): Dict<V> {
    if d == [] then [(k, v)]
    else if d[0].0 == k then [(k, v)] + d[1..]
    else [d[0]] + Put(d[1..], k, v)
  }

  /** After `d[k] = v`, `k` maps to `v` and every other key to what it mapped to before. */
  lemma {:induction false} PutGet<V>(d: Dict<V>, k: string, v: V, k': string, default: V)
    ensures Get(Put(d, k, v), k', default) == if k' == k then v else Get(d, k', default)
  {
    if d != [] && d[0].0 != k {
      assert Put(d, k, v)[1..] == Put(d[1..], k, v);
      PutGet(d[1..], k, v, k', default);
    }
  }

  /** `d[k] = v` keeps the key order, appending `k` when it is new. */
  lemma {:induction false} PutKeys<V>(d: Dict<V>, k: string, v: V)
    ensures Keys(Put(d, k, v)) == if k in Keys(d) then Keys(d) else Keys(d) + [k]
  {
    if d != [] {
      assert Keys(d) == [d[0].0] + Keys(d[1..]);
      if d[0].0 == k {
        assert Put(d, k, v)[1..] == d[1..];
      } else {
        assert Put(d, k, v)[1..] == Put(d[1..], k, v);
        PutKeys(d[1..], k, v);
      }
    }
  }

  /** `d[k] = v` never duplicates a key. */
  lemma {:induction false} PutKeyed<V>(d: Dict<V>, k: string, v: V)
    requires Keyed(d)
    ensures Keyed(Put(d, k, v))
  {
    if d != [] {
      if d[0].0 == k {
        assert Put(d, k, v)[1..] == d[1..];
      } else {
        assert Put(d, k, v)[1..] == Put(d[1..], k, v);
        PutKeyed(d[1..], k, v);
        PutKeys(d[1..], k, v);
      }
    }
  }

  /** `sum(d.values())` for a dictionary of counts. */
  function Total(d: Dict<nat>): nat {
    if d == [] then 0 else d[0].1 + Total(d[1..])
  }

  /** `sum(v for k, v in d.items() if k != skip)` */
  function TotalExcept(d: Dict<nat>, skip: string): nat {
    if d == [] then 0
    else (if d[0].0 == skip then 0 else d[0].1) + TotalExcept(d[1..], skip)
  }

  /** Helper: skipping a key that is absent skips nothing. */
  lemma {:induction false} TotalExceptAbsent(d: Dict<nat>, skip: string)
    requires skip !in Keys(d)
    ensures TotalExcept(d, skip) == Total(d)
  {
    if d != [] {
      assert Keys(d) == [d[0].0] + Keys(d[1..]);
      TotalExceptAbsent(d[1..], skip);
    }
  }

  /** The counts of the other keys and the count of `k` make up the whole. */
  lemma {:induction false} TotalSplit(d: Dict<nat>, k: string)
    requires Keyed(d)
    ensures Total(d) == TotalExcept(d, k) + Get(d, k, 0)
  {
    if d != [] {
      if d[0].0 == k {
        assert k !in Keys(d[1..]);
        TotalExceptAbsent(d[1..], k);
      } else {
        TotalSplit(d[1..], k);
      }
    }
  }

  /** `d[k] = d.get(k, 0) + 1` raises the total of the counts by exactly one. */
  lemma {:induction false} IncrementTotal(d: Dict<nat>, k: string)
    ensures Total(Put(d, k, Get(d, k, 0) + 1)) == Total(d) + 1
  {
    var r := Put(d, k, Get(d, k, 0) + 1);
    if d == [] {
      assert r == [(k, 1)];
    } else if d[0].0 == k {
      assert r == [(k, d[0].1 + 1)] + d[1..];
      assert r[1..] == d[1..];
    } else {
      var rest := Put(d[1..], k, Get(d[1..], k, 0) + 1);
      assert r == [d[0]] + rest;
      assert r[1..] == rest;
      IncrementTotal(d[1..], k);
    }
  }

}
