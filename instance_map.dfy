/**
 * The get-or-insert discipline both SDK instance caches follow
 * (`HashMap::entry` with a factory that runs only on a vacant entry),
 * stated once over plain maps.
 */
module InstanceMap {
  /**
   * The map after the call and the value handed back, when `made` is what the
   * factory would produce: an occupied key keeps its value, a vacant one gets `made`.
   */
  function GetOrAdd<K, V>(m: map<K, V>, k: K, made: V): (r: (map<K, V>, V))
  {
    if k in m then (m, m[k]) else (m[k := made], made)
  }

  /** After the call the key is present and holds the value handed back; no other key changes. */
  lemma GetOrAddStores<K, V>(m: map<K, V>, k: K, made: V)
    ensures var (m', v) := GetOrAdd(m, k, made);
      k in m' && m'[k] == v &&
      m'.Keys == m.Keys + {k} &&
      (forall k' :: k' in m && k' != k ==> m'[k'] == m[k'])
  {
  }

  /** An occupied key is answered from the map, whatever the factory would produce. */
  lemma GetOrAddPresent<K, V>(m: map<K, V>, k: K, made: V)
    requires k in m
    ensures GetOrAdd(m, k, made) == (m, m[k])
  {
  }

  /** A second call for the same key changes nothing and hands back the same value. */
  lemma GetOrAddIdempotent<K, V>(m: map<K, V>, k: K, made: V, madeAgain: V)
    ensures var (m', v) := GetOrAdd(m, k, made);
      GetOrAdd(m', k, madeAgain) == (m', v)
  {
  }
}
