/** The model of a JavaScript `Map` (the per-type object stores) and of a plain
    JavaScript object used as a dictionary (an object's `properties`): a finite
    map that also remembers the order in which its keys were first set, which
    is the order `values()`, `Object.keys` and spreading enumerate them in. */
module OrderedMaps {
  import Seqs

  datatype OMap<K(!new), V> = OMap(keys: seq<K>, vals: map<K, V>)

  /** Every key occurs once in the order, and the order lists exactly the keys of the map. */
  ghost predicate Valid<K(!new), V>(m: OMap<K, V>)
  {
    Seqs.Distinct(m.keys) && (forall k :: k in m.vals <==> k in m.keys)
  }

  function Empty<K(!new), V>(): (m: OMap<K, V>)
    ensures Valid(m) && m.vals == map[] && m.keys == []
  {
    OMap([], map[])
  }

  /** `m.set(k, v)` / `m[k] = v`: a new key goes last, an existing key keeps its place. */
  function Put<K(!new), V>(m: OMap<K, V>, k: K, v: V): (r: OMap<K, V>)
    requires Valid(m)
    ensures Valid(r)
    ensures r.vals == m.vals[k := v]
    ensures k in m.vals ==> r.keys == m.keys
    ensures k !in m.vals ==> r.keys == m.keys + [k]
  {
    if k in m.vals then OMap(m.keys, m.vals[k := v]) else OMap(m.keys + [k], m.vals[k := v])
  }

  /** `[...m.values()]`: the values in key order. */
  function Values<K(!new), V>(m: OMap<K, V>): (r: seq<V>)
    requires Valid(m)
    ensures |r| == |m.keys|
    ensures forall i :: 0 <= i < |m.keys| ==> r[i] == m.vals[m.keys[i]]
  {
    seq(|m.keys|, i requires 0 <= i < |m.keys| => m.vals[m.keys[i]])
  }

  /** A new key's value is enumerated last. */
  lemma PutNewValues<K(!new), V>(m: OMap<K, V>, k: K, v: V)
    requires Valid(m) && k !in m.vals
    ensures Values(Put(m, k, v)) == Values(m) + [v]
  {
    assert Put(m, k, v).keys == m.keys + [k];
    forall i | 0 <= i < |m.keys| ensures Values(Put(m, k, v))[i] == (Values(m) + [v])[i] {
      assert m.keys[i] != k;
    }
  }
}
