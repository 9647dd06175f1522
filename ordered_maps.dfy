/**
 * Python dictionaries iterate in insertion order, and several handlers of the
 * backend depend on that order ("the first available doctor", "the first chat
 * room shared with this doctor"). An OrderedMap pairs the key order with the
 * key/value map.
 */
module OrderedMaps {
  import opened Common

  datatype OrderedMap<K(==), V> = OrderedMap(keys: seq<K>, entries: map<K, V>) {

    /** Keys are listed once each, and exactly the mapped keys are listed. */
    predicate Valid() {
      && (forall i, j :: 0 <= i < j < |keys| ==> keys[i] != keys[j])
      && (forall k :: k in keys ==> k in entries)
      && (forall k :: k in entries ==> k in keys)
    }

    function Get(k: K): (r: Option<V>)
      ensures r.Some? <==> k in entries
      ensures r.Some? ==> r.value == entries[k]
    {
      if k in entries then Some(entries[k]) else None
    }

    /** `d[k] = v`: a new key goes to the end, an existing key keeps its position. */
    function Put(k: K, v: V): (r: OrderedMap<K, V>)
      requires Valid()
      ensures r.Valid()
      ensures r.entries == entries[k := v]
      ensures k in entries ==> r.keys == keys
      ensures k !in entries ==> r.keys == keys + [k]
    {
      if k in entries then OrderedMap(keys, entries[k := v])
      else OrderedMap(keys + [k], entries[k := v])
    }

    /** `d.values()`, in iteration order. */
    function Values(): (r: seq<V>)
      requires Valid()
      ensures |r| == |keys|
      ensures forall i :: 0 <= i < |keys| ==> r[i] == entries[keys[i]]
    {
      seq(|keys|, i requires 0 <= i < |keys| => entries[keys[i]])
    }

    /** Position of a key in iteration order. */
    function IndexOf(k: K): (i: nat)
      requires Valid() && k in entries
      ensures i < |keys| && keys[i] == k
    {
      IndexIn(keys, k)
    }
  }

  function Empty<K(==), V>(): (r: OrderedMap<K, V>)
    ensures r.Valid() && r.keys == [] && r.entries == map[]
  {
    OrderedMap([], map[])
  }

  function IndexIn<K(==)>(s: seq<K>, k: K): (i: nat)
    requires k in s
    ensures i < |s| && s[i] == k
    ensures forall j :: 0 <= j < i ==> s[j] != k
  {
    if s[0] == k then 0 else 1 + IndexIn(s[1..], k)
  }

  /** Two valid maps listing the same keys map the same keys. */
  lemma SameDomain<K, V>(a: OrderedMap<K, V>, b: OrderedMap<K, V>)
    requires a.Valid() && b.Valid() && a.keys == b.keys
    ensures a.entries.Keys == b.entries.Keys
  {
  }

  /** Re-assigning an existing key replaces its value in place in `values()`. */
  lemma PutExistingValues<K, V>(d: OrderedMap<K, V>, k: K, v: V)
    requires d.Valid() && k in d.entries
    ensures d.Put(k, v).Values() == d.Values()[d.IndexOf(k) := v]
  {
    var i := d.IndexOf(k);
    var r := d.Put(k, v);
    forall j | 0 <= j < |d.keys|
      ensures r.Values()[j] == d.Values()[i := v][j]
    {
      if j != i {
        assert d.keys[j] != k;
      }
    }
  }

  /** Assigning a new key appends its value to `values()`. */
  lemma PutNewValues<K, V>(d: OrderedMap<K, V>, k: K, v: V)
    requires d.Valid() && k !in d.entries
    ensures d.Put(k, v).Values() == d.Values() + [v]
  {
    var r := d.Put(k, v);
    forall j | 0 <= j < |d.keys|
      ensures r.Values()[j] == d.Values()[j]
    {
      assert d.keys[j] in d.entries;
    }
  }
}
