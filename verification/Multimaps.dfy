/** Indexes from keys to sets of values. */
module Multimaps {
  function Get<K(!new), V(!new)>(index: map<K, set<V>>, k: K): set<V> {
    if k in index then index[k] else {}
  }

  function Put<K(!new), V(!new)>(index: map<K, set<V>>, k: K, v: V): map<K, set<V>> {
    index[k := Get(index, k) + {v}]
  }

  lemma PutMember<K(!new), V(!new)>(index: map<K, set<V>>, k: K, v: V)
    ensures forall x, y :: y in Get(Put(index, k, v), x) <==> y in Get(index, x) || (x == k && y == v)
  {
  }
}
