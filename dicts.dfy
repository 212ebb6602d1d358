/** Python dictionaries keyed by strings, which remember insertion order. */
module Dicts {

  predicate Distinct<T(==)>(s: seq<T>) {
    forall i, j :: 0 <= i < j < |s| ==> s[i] != s[j]
  }

  /** Keys in insertion order, and the key-to-value map. */
  datatype ODict<V> = ODict(keys: seq<string>, m: map<string, V>) {
    ghost predicate Valid() {
      Distinct(keys) && (forall k :: k in m <==> k in keys)
    }
  }

  type Dict<V> = d: ODict<V> | d.Valid() witness ODict([], map[])

  /** Where the key `k` of `d` sits in its insertion order. */
  lemma KeyAt<V>(d: Dict<V>, k: string) returns (i: nat)
    requires k in d.m
    ensures i < |d.keys| && d.keys[i] == k
  {
    assert k in d.keys;
    i :| i < |d.keys| && d.keys[i] == k;
  }

  function Empty<V>(): Dict<V> {
    ODict([], map[])
  }

  /** `d[k] = v`: an existing key keeps its place, a new key goes last. */
  function Put<V>(d: Dict<V>, k: string, v: V): (r: Dict<V>)
    ensures r.m == d.m[k := v]
    ensures k in d.m ==> r.keys == d.keys
    ensures k !in d.m ==> r.keys == d.keys + [k]
  {
    if k in d.m then ODict(d.keys, d.m[k := v]) else ODict(d.keys + [k], d.m[k := v])
  }
}
