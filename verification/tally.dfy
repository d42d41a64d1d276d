/**
 Insertion-ordered string-keyed counters.

 The dashboard accumulates each grouping in a plain object used as a
 dictionary and then lists it with `Object.keys`, which yields ordinary
 string keys in the order they were first assigned. An association list of
 entries models that dictionary together with its key order.
 */
module Tally {

  /** One accumulated entry: a key and the seats counted under it. */
  datatype Entry = Entry(key: string, count: nat)

  /** The keys of a tally, in order. */
  function Keys(t: seq<Entry>): (ks: seq<string>)
    ensures |ks| == |t|
    ensures forall i :: 0 <= i < |t| ==> ks[i] == t[i].key
  {
    if t == [] then [] else [t[0].key] + Keys(t[1..])
  }

  /** The sum of all counts of a tally. */
  function Sum(t: seq<Entry>): nat {
    if t == [] then 0 else t[0].count + Sum(t[1..])
  }

  /** The count stored under `k`, or 0 when `k` is absent (the source's `|| 0`). */
  function Lookup(t: seq<Entry>, k: string): nat {
    if t == [] then 0
    else if t[0].key == k then t[0].count
    else Lookup(t[1..], k)
  }

  /** No key occurs twice, as in a dictionary. */
  predicate DistinctKeys(t: seq<Entry>) {
    forall i, j :: 0 <= i < j < |t| ==> t[i].key != t[j].key
  }

  /**
   Adds `n` to the count under `k`: an existing key keeps its place and
   grows by `n`; a new key is appended at the end with count `n`.
   */
  function Bump(t: seq<Entry>, k: string, n: nat): (r: seq<Entry>)
    ensures k in Keys(t) ==> Keys(r) == Keys(t)
    ensures k !in Keys(t) ==> Keys(r) == Keys(t) + [k]
    ensures Sum(r) == Sum(t) + n
    ensures Lookup(r, k) == Lookup(t, k) + n
    ensures forall k' :: k' != k ==> Lookup(r, k') == Lookup(t, k')
  {
    if t == [] then [Entry(k, n)]
    else if t[0].key == k then [Entry(k, t[0].count + n)] + t[1..]
    else
      assert Keys(t) == [t[0].key] + Keys(t[1..]);
      [t[0]] + Bump(t[1..], k, n)
  }

  /** Bumping keeps the keys of a tally pairwise distinct. */
  lemma {:induction false} BumpDistinct(t: seq<Entry>, k: string, n: nat)
    requires DistinctKeys(t)
    ensures DistinctKeys(Bump(t, k, n))
  {
    if t != [] && t[0].key != k {
      var rest := Bump(t[1..], k, n);
      assert DistinctKeys(t[1..]);
      BumpDistinct(t[1..], k, n);
      forall i | 0 <= i < |rest|
        ensures rest[i].key != t[0].key
      {
        var ks := Keys(t[1..]);
        assert Keys(rest)[i] == rest[i].key;
        if i < |ks| {
          assert Keys(rest)[i] == ks[i];
          assert ks[i] == t[i + 1].key;
        }
      }
      assert Bump(t, k, n) == [t[0]] + rest;
    }
  }

  /** In a tally without repeated keys, looking up an entry's key finds that entry's count. */
  lemma {:induction false} LookupDistinct(t: seq<Entry>, i: int)
    requires DistinctKeys(t)
    requires 0 <= i < |t|
    ensures Lookup(t, t[i].key) == t[i].count
  {
    if i > 0 {
      assert DistinctKeys(t[1..]);
      LookupDistinct(t[1..], i - 1);
      assert t[0].key != t[i].key;
    }
  }

  /** A key that is absent from a tally looks up as 0. */
  lemma {:induction false} LookupAbsent(t: seq<Entry>, k: string)
    requires k !in Keys(t)
    ensures Lookup(t, k) == 0
  {
    if t != [] {
      assert Keys(t) == [t[0].key] + Keys(t[1..]);
      LookupAbsent(t[1..], k);
    }
  }

  /** The first position at which `k` occurs in `ks`. */
  function FirstIndex(ks: seq<string>, k: string): (i: nat)
    requires k in ks
    ensures i < |ks| && ks[i] == k
    ensures forall j :: 0 <= j < i ==> ks[j] != k
  {
    if ks[0] == k then 0 else 1 + FirstIndex(ks[1..], k)
  }

  /** Appending to a sequence does not move the first occurrence of a key already in it. */
  lemma FirstIndexAppend(ks: seq<string>, x: string, k: string)
    requires k in ks
    ensures k in ks + [x]
    ensures FirstIndex(ks + [x], k) == FirstIndex(ks, k)
  {
    var a := FirstIndex(ks + [x], k);
    var b := FirstIndex(ks, k);
    assert (ks + [x])[b] == k;
  }

  /** A key appended to a sequence that lacks it first occurs at the end. */
  lemma FirstIndexNew(ks: seq<string>, x: string)
    requires x !in ks
    ensures x in ks + [x]
    ensures FirstIndex(ks + [x], x) == |ks|
  {
    assert (ks + [x])[|ks|] == x;
  }

  /**
   The keys `keys` are listed in the order of their first occurrence in `ks`:
   every listed key occurs in `ks`, and an earlier one occurs first strictly earlier.
   */
  predicate FirstAppearanceOrder(keys: seq<string>, ks: seq<string>) {
    forall i, j :: 0 <= i < j < |keys| ==>
      keys[i] in ks && keys[j] in ks && FirstIndex(ks, keys[i]) < FirstIndex(ks, keys[j])
  }

  /**
   Observing one more occurrence `x` keeps the listing in first-appearance
   order when a new key is appended at the end and a known key is not moved.
   */
  lemma FirstAppearanceOrderSnoc(keys: seq<string>, ks: seq<string>, x: string)
    requires FirstAppearanceOrder(keys, ks)
    requires forall k :: k in keys <==> k in ks
    ensures FirstAppearanceOrder(if x in keys then keys else keys + [x], ks + [x])
  {
    var keys' := if x in keys then keys else keys + [x];
    var ks' := ks + [x];
    forall i | 0 <= i < |keys|
      ensures keys[i] in ks' && FirstIndex(ks', keys[i]) == FirstIndex(ks, keys[i])
    {
      FirstIndexAppend(ks, x, keys[i]);
    }
    if x !in keys {
      FirstIndexNew(ks, x);
      forall i, j | 0 <= i < j < |keys'|
        ensures keys'[i] in ks' && keys'[j] in ks'
        ensures FirstIndex(ks', keys'[i]) < FirstIndex(ks', keys'[j])
      {
        if j == |keys| {
          assert keys'[j] == x;
          assert keys'[i] == keys[i];
        } else {
          assert keys'[i] == keys[i] && keys'[j] == keys[j];
        }
      }
    }
  }
}
