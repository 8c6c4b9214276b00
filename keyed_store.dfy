/**
 * The two `HashMap` operations every cache in the system is built from:
 * `insert` (Dafny's map update) and `remove`, which hands back the value it takes out.
 */
module KeyedStore {
  import opened Wrappers

  /** `HashMap::remove`: the value stored under `k`, if any, and the map without `k`. */
  function Take<K, V>(m: map<K, V>, k: K): (r: (Option<V>, map<K, V>))
    ensures r.1 == m - {k}
    ensures r.0.Some? <==> k in m
    ensures r.0.Some? ==> r.0.value == m[k]
  {
    if k in m then (Some(m[k]), m - {k}) else (None, m)
  }

  /** A value put under `k` is the value taken back out of `k`. */
  lemma PutThenTake<K, V>(m: map<K, V>, k: K, v: V)
    ensures Take(m[k := v], k) == (Some(v), m - {k})
  {
    assert m[k := v] - {k} == m - {k};
  }

  /** Taking is destructive: a second take of the same key finds nothing. */
  lemma TakeTwice<K, V>(m: map<K, V>, k: K)
    ensures Take(Take(m, k).1, k).0 == None
  {
  }

  /** Putting under one key leaves what every other key holds unchanged. */
  lemma PutLeavesOthers<K, V>(m: map<K, V>, k: K, j: K, v: V)
    requires j != k
    ensures Take(m[k := v], j).0 == Take(m, j).0
  {
  }
}
