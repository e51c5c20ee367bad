/** The source language's Map: it remembers the order in which its keys were
    first set; setting a key again keeps its place. */
module OrderedMaps {

  datatype OrderedMap<K(==,!new), V> = OrderedMap(keys: seq<K>, at: map<K, V>) {

    ghost predicate Valid() {
      && Distinct(keys)
      && (forall k :: k in keys <==> k in at)
    }

    function Set(k: K, v: V): (m: OrderedMap<K, V>)
      requires Valid()
      ensures m.Valid() && m.at == at[k := v]
      ensures m.keys == if k in at then keys else keys + [k]
    {
      OrderedMap(if k in at then keys else keys + [k], at[k := v])
    }

    function Delete(k: K): (m: OrderedMap<K, V>)
      requires Valid()
      ensures m.Valid() && m.at == at - {k}
      ensures m.keys == Without(keys, k)
    {
      WithoutKey(keys, k);
      OrderedMap(Without(keys, k), at - {k})
    }

    function Values(): (vs: seq<V>)
      requires Valid()
      ensures |vs| == |keys| && forall i :: 0 <= i < |keys| ==> vs[i] == at[keys[i]]
    {
      seq(|keys|, i requires 0 <= i < |keys| => at[keys[i]])
    }
  }

  function NoEntries<K(==,!new), V>(): (m: OrderedMap<K, V>)
    ensures m.Valid()
  {
    OrderedMap([], map[])
  }

  function Without<K(==,!new)>(keys: seq<K>, k: K): seq<K> {
    if keys == [] then []
    else if keys[0] == k then Without(keys[1..], k)
    else [keys[0]] + Without(keys[1..], k)
  }

  ghost predicate Distinct<K(!new)>(keys: seq<K>) {
    forall i, j :: 0 <= i < j < |keys| ==> keys[i] != keys[j]
  }

  lemma {:induction false} WithoutKey<K(!new)>(keys: seq<K>, k: K)
    requires Distinct(keys)
    ensures Distinct(Without(keys, k))
    ensures forall x :: x in Without(keys, k) <==> x in keys && x != k
    decreases |keys|
  {
    if keys != [] {
      WithoutKey(keys[1..], k);
      assert keys == [keys[0]] + keys[1..];
      var rest := Without(keys[1..], k);
      forall i | 0 <= i < |rest| ensures rest[i] != keys[0] {
        assert rest[i] in keys[1..];
      }
    }
  }
}
