/** A PHP array with string keys: an ordered dictionary. Keys are unique and
    keep the position at which they were first inserted; writing to a new key
    appends it, writing to an existing key replaces its value in place. */
module PhpArray {
  import opened Php

  type Dict<V> = seq<(string, V)>

  function Keys<V>(a: Dict<V>): (ks: seq<string>)
    ensures |ks| == |a|
    ensures forall i :: 0 <= i < |a| ==> ks[i] == a[i].0
  {
    seq(|a|, i requires 0 <= i < |a| => a[i].0)
  }

  /** `array_values`: the values in key order. */
  function Values<V>(a: Dict<V>): (vs: seq<V>)
    ensures |vs| == |a|
    ensures forall i :: 0 <= i < |a| ==> vs[i] == a[i].1
  {
    seq(|a|, i requires 0 <= i < |a| => a[i].1)
  }

  predicate UniqueKeys<V>(a: Dict<V>) {
    forall i, j :: 0 <= i < j < |a| ==> a[i].0 != a[j].0
  }

  /** `$a[k]` read through `isset`: the value stored under `k`, if any. */
  function Lookup<V>(a: Dict<V>, k: string): Option<V> {
    if a == [] then None
    else if a[0].0 == k then Some(a[0].1)
    else Lookup(a[1..], k)
  }

  /** A lookup finds something exactly when the key is present, and what it
      finds is stored under that key. */
  lemma {:induction false} LookupFinds<V>(a: Dict<V>, k: string)
    ensures Lookup(a, k).None? <==> k !in Keys(a)
    ensures Lookup(a, k).Some? ==> (k, Lookup(a, k).value) in a
  {
    if a != [] {
      assert Keys(a) == [a[0].0] + Keys(a[1..]);
      LookupFinds(a[1..], k);
      if a[0].0 != k && Lookup(a, k).Some? {
        assert (k, Lookup(a, k).value) in a[1..];
      }
    }
  }

  /** In an array with unique keys, the entry at a position is what a lookup
      of its key finds. */
  lemma {:induction false} LookupAt<V>(a: Dict<V>, i: nat)
    requires UniqueKeys(a) && i < |a|
    ensures Lookup(a, a[i].0) == Some(a[i].1)
  {
    if i > 0 {
      LookupAt(a[1..], i - 1);
    }
  }

  /** `$a[k] = v`: replaces the value of an existing key where it stands, or
      appends a new entry. */
  function Put<V>(a: Dict<V>, k: string, v: V): Dict<V> {
    if a == [] then [(k, v)]
    else if a[0].0 == k then [(k, v)] + a[1..]
    else [a[0]] + Put(a[1..], k, v)
  }

  /** After the write, `k` maps to `v` and every other key maps to what it
      mapped to before. */
  lemma {:induction false} PutLookup<V>(a: Dict<V>, k: string, v: V, k': string)
    ensures Lookup(Put(a, k, v), k') == if k' == k then Some(v) else Lookup(a, k')
  {
    if a != [] && a[0].0 != k {
      PutLookup(a[1..], k, v, k');
    }
  }

  /** An existing key keeps its position; a new key goes at the end. */
  lemma {:induction false} PutKeys<V>(a: Dict<V>, k: string, v: V)
    ensures Keys(Put(a, k, v)) == if k in Keys(a) then Keys(a) else Keys(a) + [k]
  {
    if a == [] {
    } else if a[0].0 == k {
      assert Keys(Put(a, k, v)) == Keys(a);
    } else {
      PutKeys(a[1..], k, v);
      assert Keys(a) == [a[0].0] + Keys(a[1..]);
      assert Keys(Put(a, k, v)) == [a[0].0] + Keys(Put(a[1..], k, v));
    }
  }

  /** Writing a key keeps the keys unique. */
  lemma PutUnique<V>(a: Dict<V>, k: string, v: V)
    requires UniqueKeys(a)
    ensures UniqueKeys(Put(a, k, v))
  {
    var r := Put(a, k, v);
    var ka, kr := Keys(a), Keys(r);
    PutKeys(a, k, v);
    forall i, j | 0 <= i < j < |r| ensures r[i].0 != r[j].0 {
      assert kr[i] == r[i].0 && kr[j] == r[j].0;
      if j == |a| {
        assert k !in ka && kr[j] == k && kr[i] == ka[i];
      }
    }
  }

  /** Everything a write `$a[k] = v` does to an array with unique keys. */
  lemma PutFacts<V>(a: Dict<V>, k: string, v: V)
    requires UniqueKeys(a)
    ensures UniqueKeys(Put(a, k, v))
    ensures Keys(Put(a, k, v)) == if k in Keys(a) then Keys(a) else Keys(a) + [k]
    ensures forall k' :: Lookup(Put(a, k, v), k') == if k' == k then Some(v) else Lookup(a, k')
  {
    PutUnique(a, k, v);
    PutKeys(a, k, v);
    forall k' ensures Lookup(Put(a, k, v), k') == if k' == k then Some(v) else Lookup(a, k') {
      PutLookup(a, k, v, k');
    }
  }
}
