/** A JavaScript Map as the modules use one: its entries, and its keys in the order they were first put in. Putting a
    key again keeps its place; deleting it and putting it again moves it to the end. */
module OrderedMap {

  datatype OrderedMap<K(==, !new), V> = OrderedMap(keys: seq<K>, entries: map<K, V>) {

    ghost predicate Valid() {
      && (forall k :: k in keys <==> k in entries)
      && Distinct(keys)
    }

    function Set(key: K, value: V): OrderedMap<K, V> {
      OrderedMap(if key in entries then keys else keys + [key], entries[key := value])
    }

    function Put(key: K, value: V): (m: OrderedMap<K, V>)
      requires Valid()
      ensures m.Valid()
      ensures m.entries == entries[key := value]
      ensures m.keys == if key in entries then keys else keys + [key]
    {
      Set(key, value)
    }

    function Delete(key: K): (m: OrderedMap<K, V>)
      requires Valid()
      ensures m.Valid()
      ensures m.entries == entries - {key}
      ensures m.keys == Without(keys, key)
    {
      WithoutKeepsDistinct(keys, key);
      OrderedMap(Without(keys, key), entries - {key})
    }
  }

  ghost predicate Distinct<K(!new)>(keys: seq<K>) {
    forall i, j :: 0 <= i < j < |keys| ==> keys[i] != keys[j]
  }

  function Empty<K(==, !new), V>(): (m: OrderedMap<K, V>)
    ensures m.Valid()
  {
    OrderedMap([], map[])
  }

  function Without<K(==, !new)>(keys: seq<K>, key: K): (rest: seq<K>) {
    if keys == [] then [] else if keys[0] == key then Without(keys[1..], key) else [keys[0]] + Without(keys[1..], key)
  }

  lemma {:induction false} WithoutKeepsDistinct<K(!new)>(keys: seq<K>, key: K)
    requires Distinct(keys)
    ensures Distinct(Without(keys, key))
    ensures |Without(keys, key)| == if key in keys then |keys| - 1 else |keys|
    ensures forall k :: k in Without(keys, key) <==> k in keys && k != key
    ensures key !in keys ==> Without(keys, key) == keys
  {
    if keys != [] {
      assert keys[0] !in keys[1..];
      WithoutKeepsDistinct(keys[1..], key);
    }
  }

  lemma WithoutCons<K(!new)>(head: K, rest: seq<K>, key: K)
    ensures Without([head] + rest, key) == (if head == key then [] else [head]) + Without(rest, key)
  {
    assert ([head] + rest)[1..] == rest;
  }
}
