/**
 * Python dictionaries keep their keys in insertion order, and several operations of the
 * logger depend on that order (the first key, `popitem`, the order of appended keys).
 * A `Dict` is therefore a sequence of distinct keys together with a map giving each key
 * its value.
 */
module Dicts {

  /** No element occurs twice. */
  ghost predicate Distinct<T>(s: seq<T>) {
    forall i, j :: 0 <= i < j < |s| ==> s[i] != s[j]
  }

  datatype Dict<K(==,!new), V> = Dict(keys: seq<K>, entries: map<K, V>) {

    /** Keys are distinct and are exactly the keys of the map. */
    ghost predicate Valid() {
      Distinct(keys) && forall k :: k in entries <==> k in keys
    }

    /** `d[k] = v`: overwrite in place, or append a new key at the end. */
    function Put(k: K, v: V): (r: Dict<K, V>)
      requires Valid()
      ensures r.Valid()
      ensures r.entries == entries[k := v]
      ensures r.keys == if k in entries then keys else keys + [k]
    {
      if k in entries then Dict(keys, entries[k := v]) else Dict(keys + [k], entries[k := v])
    }

    /** The pairs of `d.items()`, in key order. */
    function Items(): (r: seq<(K, V)>)
      requires Valid()
      ensures |r| == |keys|
      ensures forall i :: 0 <= i < |r| ==> r[i].0 == keys[i] && r[i].1 == entries[keys[i]]
    {
      seq(|keys|, i requires 0 <= i < |keys| => (keys[i], entries[keys[i]]))
    }

    /** `del d[k]` for a present key. */
    function Remove(k: K): (r: Dict<K, V>)
      requires Valid() && k in entries
      ensures r.Valid()
      ensures r.entries == entries - {k}
      ensures forall x :: x in r.keys <==> x in keys && x != k
      ensures r.keys == RemoveKey(keys, k)
    {
      Dict(RemoveKey(keys, k), entries - {k})
    }
  }

  function Empty<K(==,!new), V>(): (r: Dict<K, V>)
    ensures r.Valid() && r.keys == [] && r.entries == map[]
  {
    Dict([], map[])
  }

  /** The sequence `s` with every occurrence of `k` dropped, order kept. */
  function RemoveKey<K(==,!new)>(s: seq<K>, k: K): (r: seq<K>)
    ensures forall x :: x in r <==> x in s && x != k
    ensures Distinct(s) ==> Distinct(r)
  {
    if s == [] then []
    else if s[0] == k then RemoveKey(s[1..], k)
    else
      var rest := RemoveKey(s[1..], k);
      assert Distinct(s) ==> s[0] !in s[1..];
      [s[0]] + rest
  }

  /** Dropping a key that does not occur changes nothing. */
  lemma {:induction false} RemoveAbsentKey<K(!new)>(s: seq<K>, k: K)
    requires k !in s
    ensures RemoveKey(s, k) == s
    decreases |s|
  {
    if s != [] {
      RemoveAbsentKey(s[1..], k);
    }
  }

  /** A first element other than the key is kept in front. */
  lemma RemoveKeyFront<K(!new)>(s: seq<K>, k: K)
    requires s != [] && s[0] != k
    ensures RemoveKey(s, k) == [s[0]] + RemoveKey(s[1..], k)
  {
  }

  /** Dropping a key that is not in the front part only touches the back part. */
  lemma {:induction false} RemoveKeyAppend<K(!new)>(a: seq<K>, b: seq<K>, k: K)
    requires k !in a
    ensures RemoveKey(a + b, k) == a + RemoveKey(b, k)
    decreases |a|
  {
    if a != [] {
      assert (a + b)[1..] == a[1..] + b;
      RemoveKeyFront(a + b, k);
      RemoveKeyAppend(a[1..], b, k);
      assert a == [a[0]] + a[1..];
    } else {
      assert a + b == b;
    }
  }

  /** An element of a sequence without repetitions occurs neither before nor after itself. */
  lemma DistinctAt<K>(s: seq<K>, i: int)
    requires Distinct(s) && 0 <= i < |s|
    ensures s[i] !in s[..i] && s[i] !in s[i + 1..]
  {
    var before, after := s[..i], s[i + 1..];
    forall j | 0 <= j < |before| ensures before[j] != s[i] { }
    forall j | 0 <= j < |after| ensures after[j] != s[i] {
      assert after[j] == s[i + 1 + j];
    }
  }

  /** The prefix of a sequence without repetitions has none either. */
  lemma DistinctPrefix<K>(keys: seq<K>, n: int)
    requires Distinct(keys) && 0 <= n <= |keys|
    ensures Distinct(keys[..n])
  {
    var front := keys[..n];
    forall a, b | 0 <= a < b < |front| ensures front[a] != front[b] {
      assert front[a] == keys[a] && front[b] == keys[b];
    }
  }
}
