/** Optional values, and maps that remember the order in which their keys were inserted. */
module OrderedMaps {

  datatype Option<+T> = None | Some(value: T)

  /** A JavaScript `Map`: iteration visits `keys` from first to last. */
  datatype OrderedMap<K(==), V> = OrderedMap(keys: seq<K>, entries: map<K, V>)

  ghost predicate Distinct<K>(keys: seq<K>) {
    forall i, j :: 0 <= i < j < |keys| ==> keys[i] != keys[j]
  }

  ghost predicate Valid<K, V>(m: OrderedMap<K, V>) {
    && Distinct(m.keys)
    && (forall k :: k in m.keys ==> k in m.entries)
    && (forall k :: k in m.entries ==> k in m.keys)
  }

  function Empty<K(==), V>(): OrderedMap<K, V> {
    OrderedMap([], map[])
  }

  /** `Map.set`: a known key keeps its place, a new one goes last. */
  function Put<K(==), V>(m: OrderedMap<K, V>, k: K, v: V): OrderedMap<K, V> {
    OrderedMap(if k in m.entries then m.keys else m.keys + [k], m.entries[k := v])
  }

  function Without<K(==)>(keys: seq<K>, k: K): seq<K> {
    if keys == [] then []
    else if keys[0] == k then Without(keys[1..], k)
    else [keys[0]] + Without(keys[1..], k)
  }

  /** `Map.delete`: does nothing when the key is absent. */
  function Delete<K(==), V>(m: OrderedMap<K, V>, k: K): OrderedMap<K, V> {
    OrderedMap(Without(m.keys, k), m.entries - {k})
  }

  function DeleteAll<K(==), V>(m: OrderedMap<K, V>, ks: seq<K>): OrderedMap<K, V> {
    if ks == [] then m else Delete(DeleteAll(m, ks[..|ks| - 1]), ks[|ks| - 1])
  }

  lemma {:induction false} WithoutMembers<K>(keys: seq<K>, k: K)
    ensures forall x :: x in Without(keys, k) ==> x in keys && x != k
    ensures forall x :: x in keys && x != k ==> x in Without(keys, k)
    ensures Distinct(keys) ==> Distinct(Without(keys, k))
  {
    if keys != [] {
      WithoutMembers(keys[1..], k);
      if Distinct(keys) {
        assert forall i :: 0 <= i < |keys[1..]| ==> keys[1..][i] == keys[i + 1];
        assert keys[0] !in Without(keys[1..], k);
      }
    }
  }

  lemma {:induction false} WithoutAbsent<K>(keys: seq<K>, k: K)
    requires k !in keys
    ensures Without(keys, k) == keys
  {
    if keys != [] {
      WithoutAbsent(keys[1..], k);
    }
  }

  lemma PutValid<K, V>(m: OrderedMap<K, V>, k: K, v: V)
    requires Valid(m)
    ensures Valid(Put(m, k, v))
  {
  }

  lemma DeleteValid<K, V>(m: OrderedMap<K, V>, k: K)
    requires Valid(m)
    ensures Valid(Delete(m, k))
  {
    WithoutMembers(m.keys, k);
    forall x | x in Without(m.keys, k)
      ensures x in Delete(m, k).entries
    {
      assert x in m.keys;
    }
  }
}
