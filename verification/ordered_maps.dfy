/** A JavaScript `Map`: values keyed by K, iterated in first-insertion order. */
module OrderedMaps {
  import opened Seqs

  datatype OrderedMap<K(==,!new), V> = OrderedMap(keys: seq<K>, at: map<K, V>) {

    /** The keys listed once each, and exactly the keys that have a value. */
    ghost predicate Valid() {
      Distinct(keys) && forall k :: k in at <==> k in keys
    }

    /** `m.has(k)`. */
    predicate Has(k: K) {
      k in at
    }

    /** `m.set(k, v)`: a new key goes last, an existing one keeps its place. */
    function Set(k: K, v: V): (m: OrderedMap<K, V>)
      requires Valid()
      ensures m.Valid()
      ensures m.at == at[k := v]
      ensures m.keys == if k in keys then keys else keys + [k]
    {
      OrderedMap(if k in at then keys else keys + [k], at[k := v])
    }
  }

  /** `new Map()`. */
  function Empty<K(==,!new), V>(): (m: OrderedMap<K, V>)
    ensures m.Valid() && m.keys == []
  {
    OrderedMap([], map[])
  }

  /** Setting a key twice is setting it to the second value: the key keeps the place the
      first set gave it. */
  lemma SetSet<K(!new), V>(m: OrderedMap<K, V>, k: K, v: V, w: V)
    requires m.Valid()
    ensures m.Set(k, v).Set(k, w) == m.Set(k, w)
  {
    assert m.Set(k, v).Set(k, w).at == m.Set(k, w).at;
  }
}
