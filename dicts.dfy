/**
 * Python's insertion-ordered `dict`: a key sequence without repetitions that
 * fixes the iteration order, and a map that gives each key its value.
 * Assigning to a key that is already present keeps its position and replaces
 * its value; a new key goes to the end.
 */
module Dicts {
  import opened Wrappers

  /** No element occurs twice. */
  ghost predicate Distinct<K>(s: seq<K>)
    decreases |s|
  {
    s == [] || (s[0] !in s[1..] && Distinct(s[1..]))
  }

  /** Appending a new element keeps a sequence free of repetitions. */
  lemma {:induction false} DistinctAppend<K>(s: seq<K>, k: K)
    requires Distinct(s) && k !in s
    ensures Distinct(s + [k])
    decreases |s|
  {
    if s != [] {
      DistinctAppend(s[1..], k);
      assert (s + [k])[1..] == s[1..] + [k];
    }
  }

  /** In a sequence free of repetitions, distinct positions hold distinct elements. */
  lemma {:induction false} DistinctAt<K>(s: seq<K>, i: nat, j: nat)
    requires Distinct(s) && i < j < |s|
    ensures s[i] != s[j]
    decreases i
  {
    if i == 0 {
      assert s[j] == s[1..][j - 1];
    } else {
      DistinctAt(s[1..], i - 1, j - 1);
    }
  }

  datatype RawDict<K, V> = RawDict(keys: seq<K>, entries: map<K, V>) {
    ghost predicate Valid() {
      Distinct(keys) && entries.Keys == set k | k in keys
    }
  }

  type Dict<K, V> = d: RawDict<K, V> | d.Valid() witness RawDict([], map[])

  function Empty<K, V>(): (d: Dict<K, V>)
    ensures d.keys == [] && d.entries == map[]
  {
    RawDict([], map[])
  }

  /** `d[k] = v`. */
  function Put<K, V>(d: Dict<K, V>, k: K, v: V): (r: Dict<K, V>)
    ensures r.entries == d.entries[k := v]
    ensures r.keys == if k in d.entries then d.keys else d.keys + [k]
  {
    if k in d.entries then RawDict(d.keys, d.entries[k := v])
    else
      DistinctAppend(d.keys, k);
      RawDict(d.keys + [k], d.entries[k := v])
  }

  /** Putting the next key of `ks` into a dict keyed by a prefix of `ks` extends the prefix by one. */
  lemma PutNextKey<K, V>(d: Dict<K, V>, ks: seq<K>, i: nat, v: V)
    requires i < |ks| && forall k :: k in d.entries <==> k in ks[..i]
    ensures forall k :: k in Put(d, ks[i], v).entries <==> k in ks[..i + 1]
  {
    assert ks[..i + 1] == ks[..i] + [ks[i]];
  }

  /** Assigning to the `i`-th key changes that key's value only. */
  lemma PutAtKey<K, V>(d: Dict<K, V>, i: nat, v: V)
    requires i < |d.keys|
    ensures Put(d, d.keys[i], v).keys == d.keys
    ensures Put(d, d.keys[i], v).entries == d.entries[d.keys[i] := v]
    ensures forall j :: 0 <= j < |d.keys| && j != i ==> d.keys[j] != d.keys[i]
  {
    forall j | 0 <= j < |d.keys| && j != i
      ensures d.keys[j] != d.keys[i]
    {
      if j < i { DistinctAt(d.keys, j, i); } else { DistinctAt(d.keys, i, j); }
    }
  }

  /**
   * Rewriting the values of `d` in key order towards `target`, which has the
   * same keys: the first `i` values are the target's, the others still `d`'s.
   */
  ghost predicate UpdatedUpTo<K, V>(d: Dict<K, V>, r: Dict<K, V>, target: Dict<K, V>, i: nat) {
    && i <= |d.keys| && r.keys == d.keys && r.entries.Keys == d.entries.Keys
    && target.keys == d.keys && target.entries.Keys == d.entries.Keys
    && (forall j :: 0 <= j < i ==> r.entries[d.keys[j]] == target.entries[d.keys[j]])
    && (forall j :: i <= j < |d.keys| ==> r.entries[d.keys[j]] == d.entries[d.keys[j]])
  }

  /** Assigning the target's value to the `i`-th key extends the rewrite by one. */
  lemma UpdateOneMore<K, V>(d: Dict<K, V>, r: Dict<K, V>, target: Dict<K, V>, i: nat)
    requires UpdatedUpTo(d, r, target, i) && i < |d.keys|
    ensures UpdatedUpTo(d, Put(r, d.keys[i], target.entries[d.keys[i]]), target, i + 1)
  {
    PutAtKey(r, i, target.entries[d.keys[i]]);
  }

  /** Once every key is rewritten, the dict is the target. */
  lemma UpdatedAll<K, V>(d: Dict<K, V>, r: Dict<K, V>, target: Dict<K, V>)
    requires UpdatedUpTo(d, r, target, |d.keys|)
    ensures r == target
  {
    forall k | k in r.entries
      ensures r.entries[k] == target.entries[k]
    {
      var j :| 0 <= j < |d.keys| && d.keys[j] == k;
    }
  }

  /** Three distinct keys put into an empty dict keep their order. */
  lemma ThreeKeys<K, V>(a: K, x: V, b: K, y: V, c: K, z: V)
    requires a != b && a != c && b != c
    ensures Put(Put(Put(Empty(), a, x), b, y), c, z).keys == [a, b, c]
  {
    var d1 := Put(Empty(), a, x);
    assert d1.keys == [a] && d1.entries.Keys == {a};
    var d2 := Put(d1, b, y);
    assert d2.keys == [a, b] && d2.entries.Keys == {a, b};
  }

  /** `d.update(items)`, or a dict comprehension when `d` is empty: `Put` of each item in turn. */
  function PutAll<K, V>(d: Dict<K, V>, items: seq<(K, V)>): (r: Dict<K, V>)
    decreases |items|
  {
    if items == [] then d else PutAll(Put(d, items[0].0, items[0].1), items[1..])
  }

  /** `d.values()` in iteration order. */
  function Values<K, V>(d: Dict<K, V>): (r: seq<V>)
    ensures |r| == |d.keys|
    ensures forall i :: 0 <= i < |d.keys| ==> r[i] == d.entries[d.keys[i]]
  {
    seq(|d.keys|, i requires 0 <= i < |d.keys| => d.entries[d.keys[i]])
  }

  /** `d.items()` in iteration order. */
  function Items<K, V>(d: Dict<K, V>): (r: seq<(K, V)>)
    ensures |r| == |d.keys|
    ensures forall i :: 0 <= i < |d.keys| ==> r[i] == (d.keys[i], d.entries[d.keys[i]])
  {
    seq(|d.keys|, i requires 0 <= i < |d.keys| => (d.keys[i], d.entries[d.keys[i]]))
  }

  /** `d.get(k)`. */
  function Get<K, V>(d: Dict<K, V>, k: K): Option<V> {
    if k in d.entries then Some(d.entries[k]) else None
  }

  /** The keys of the items, in order. */
  function KeysOf<K, V>(items: seq<(K, V)>): seq<K> {
    seq(|items|, i requires 0 <= i < |items| => items[i].0)
  }

  /** After `PutAll`, a key is present iff it was present or some item has it. */
  lemma {:induction false} PutAllKeys<K, V>(d: Dict<K, V>, items: seq<(K, V)>, k: K)
    ensures k in PutAll(d, items).entries <==> k in d.entries || k in KeysOf(items)
    decreases |items|
  {
    if items != [] {
      PutAllKeys(Put(d, items[0].0, items[0].1), items[1..], k);
      assert KeysOf(items) == [items[0].0] + KeysOf(items[1..]);
    }
  }

  /** A key no item has keeps its old value. */
  lemma {:induction false} PutAllUntouched<K, V>(d: Dict<K, V>, items: seq<(K, V)>, k: K)
    requires k !in KeysOf(items) && k in d.entries
    ensures k in PutAll(d, items).entries && PutAll(d, items).entries[k] == d.entries[k]
    decreases |items|
  {
    if items != [] {
      assert KeysOf(items) == [items[0].0] + KeysOf(items[1..]);
      PutAllUntouched(Put(d, items[0].0, items[0].1), items[1..], k);
    }
  }

  /** A key some item has gets the value of the LAST item with that key. */
  lemma {:induction false} PutAllLastWins<K, V>(d: Dict<K, V>, items: seq<(K, V)>, i: nat)
    requires i < |items|
    requires forall j :: i < j < |items| ==> items[j].0 != items[i].0
    ensures items[i].0 in PutAll(d, items).entries
    ensures PutAll(d, items).entries[items[i].0] == items[i].1
    decreases |items|
  {
    var d' := Put(d, items[0].0, items[0].1);
    if i == 0 {
      assert items[0].0 !in KeysOf(items[1..]) by {
        forall j | 0 <= j < |items[1..]|
          ensures KeysOf(items[1..])[j] != items[0].0
        {
          assert items[1..][j] == items[j + 1];
        }
      }
      PutAllUntouched(d', items[1..], items[0].0);
    } else {
      forall j | i - 1 < j < |items[1..]|
        ensures items[1..][j].0 != items[1..][i - 1].0
      {
        assert items[1..][j] == items[j + 1];
      }
      PutAllLastWins(d', items[1..], i - 1);
    }
  }

  /** `PutAll` keeps the old keys in place and appends the new ones in first-seen order. */
  lemma {:induction false} PutAllKeepsOrder<K, V>(d: Dict<K, V>, items: seq<(K, V)>)
    ensures d.keys <= PutAll(d, items).keys
    decreases |items|
  {
    if items != [] {
      PutAllKeepsOrder(Put(d, items[0].0, items[0].1), items[1..]);
    }
  }

  /** One more item puts one more key-value pair. */
  lemma {:induction false} PutAllSnoc<K, V>(d: Dict<K, V>, items: seq<(K, V)>, item: (K, V))
    ensures PutAll(d, items + [item]) == Put(PutAll(d, items), item.0, item.1)
    decreases |items|
  {
    if items == [] {
      assert items + [item] == [item];
    } else {
      assert (items + [item])[1..] == items[1..] + [item];
      PutAllSnoc(Put(d, items[0].0, items[0].1), items[1..], item);
    }
  }
}
