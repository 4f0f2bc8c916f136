/** Python dictionaries that keep insertion order (`dict`, `OrderedDict`, a loaded YAML
    mapping): a sequence of entries, looked up from the front. */
module OrderedMaps {
  import opened Wrappers

  /** The keys in order. */
  function MapKeys<K, V>(m: seq<(K, V)>): (r: seq<K>)
    ensures |r| == |m| && forall i :: 0 <= i < |m| ==> r[i] == m[i].0
  {
    if m == [] then [] else [m[0].0] + MapKeys(m[1..])
  }

  /** `d.get(key)`: the value of the first entry with that key. */
  function Get<K(==, !new), V>(m: seq<(K, V)>, key: K): (r: Option<V>)
    ensures r.None? <==> key !in MapKeys(m)
    ensures r.Some? ==> (key, r.value) in m
  {
    if m == [] then None
    else if m[0].0 == key then Some(m[0].1)
    else
      assert MapKeys(m) == [m[0].0] + MapKeys(m[1..]);
      Get(m[1..], key)
  }

  /** `d[key] = v`: an existing key keeps its place, a new one goes at the end. */
  function Put<K(==, !new), V>(m: seq<(K, V)>, key: K, v: V): seq<(K, V)>
  {
    if m == [] then [(key, v)]
    else if m[0].0 == key then [(key, v)] + m[1..]
    else [m[0]] + Put(m[1..], key, v)
  }

  /** An existing key keeps its place, a new one goes at the end. */
  lemma {:induction false} PutOrder<K(!new), V>(m: seq<(K, V)>, key: K, v: V)
    ensures MapKeys(Put(m, key, v)) == if key in MapKeys(m) then MapKeys(m) else MapKeys(m) + [key]
    decreases |m|
  {
    if m != [] && m[0].0 != key {
      var rest := Put(m[1..], key, v);
      PutOrder(m[1..], key, v);
      assert MapKeys(m) == [m[0].0] + MapKeys(m[1..]);
      assert MapKeys([m[0]] + rest) == [m[0].0] + MapKeys(rest);
    }
  }

  /** After the assignment the key has the new value and every other key its old one. */
  lemma {:induction false} PutGet<K(!new), V>(m: seq<(K, V)>, key: K, v: V, k: K)
    ensures Get(Put(m, key, v), k) == if k == key then Some(v) else Get(m, k)
    decreases |m|
  {
    if m != [] && m[0].0 != key {
      PutGet(m[1..], key, v, k);
    }
  }

  /** After an assignment the key is present, and so is every key that was. */
  lemma {:induction false} PutKeys<K(!new), V>(m: seq<(K, V)>, key: K, v: V)
    ensures key in MapKeys(Put(m, key, v))
    ensures forall k :: k in MapKeys(m) ==> k in MapKeys(Put(m, key, v))
  {
    PutOrder(m, key, v);
    var ks, rs := MapKeys(m), MapKeys(Put(m, key, v));
    if key !in ks {
      assert rs[|ks|] == key;
    }
  }

  /** No key appears twice, as in a real dictionary. */
  predicate DistinctKeys<K(==, !new), V>(m: seq<(K, V)>) {
    forall i, j :: 0 <= i < j < |m| ==> m[i].0 != m[j].0
  }

  /** Assignment keeps the keys distinct. */
  lemma {:induction false} PutDistinct<K(!new), V>(m: seq<(K, V)>, key: K, v: V)
    requires DistinctKeys(m)
    ensures DistinctKeys(Put(m, key, v))
  {
    var r := Put(m, key, v);
    PutOrder(m, key, v);
    var ks, rs := MapKeys(m), MapKeys(r);
    assert forall i, j :: 0 <= i < j < |m| ==> ks[i] != ks[j];
    assert forall i, j :: 0 <= i < j < |r| ==> rs[i] != rs[j];
  }
}
