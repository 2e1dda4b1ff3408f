/**
 The map with one lock per operation that holds the tasks of the posted timers. The functions say what
 each operation does to the contents; the timer service uses them for its steps.
 */
module ConcurrentMaps {
  /** The contents after `FirstInsert`, and whether there were none before. */
  function FirstInserted<K, V(==)>(m: map<K, V>, key: K, value: V): (map<K, V>, bool) {
    (m[key := value], m == map[])
  }

  function Erased<K, V>(m: map<K, V>, key: K): map<K, V> {
    m - {key}
  }

  /** Of several inserts into a map, exactly the one that finds it empty is told so, and erasing an
      entry makes the next insert the first again iff it was the only one. */
  lemma FirstAgain<K, V>(m: map<K, V>, key: K, value: V, next: K)
    requires key in m
    ensures !FirstInserted(m, next, value).1
    ensures FirstInserted(Erased(m, key), next, value).1 <==> m.Keys == {key}
    ensures key !in Erased(m, key) && Erased(m, key) == Erased(m[key := value], key)
  {
    assert Erased(m, key) == map[] <==> m.Keys - {key} == {};
  }

  class ConcurrentMap<K(==), V(==)> {
    var map_: map<K, V>

    constructor ()
      ensures map_ == map[]
    {
      map_ := map[];
    }

    /** An existing entry is taken out before the new one goes in. */
    method FirstInsert(key: K, value: V) returns (isFirst: bool)
      modifies this
      ensures (map_, isFirst) == FirstInserted(old(map_), key, value)
    {
      isFirst := |map_| == 0;
      if key in map_ {
        map_ := map_ - {key};
      }
      map_ := map_[key := value];
      assert map_ == old(map_)[key := value];
    }

    method IsEmpty() returns (r: bool)
      ensures r <==> map_ == map[]
    {
      r := |map_| == 0;
    }

    method Erase(key: K)
      modifies this
      ensures map_ == Erased(old(map_), key)
    {
      if key in map_ {
        map_ := map_ - {key};
      }
    }
  }
}
