/** Facts about sequence concatenation that the call and record traces rely on. */
module Sequences {
  /** Concatenation is associative. */
  lemma ConcatAssoc<T>(a: seq<T>, b: seq<T>, c: seq<T>)
    ensures (a + b) + c == a + (b + c)
  {
    assert |(a + b) + c| == |a + (b + c)|;
    forall i | 0 <= i < |a + b + c|
      ensures ((a + b) + c)[i] == (a + (b + c))[i]
    {
      if i >= |a| + |b| {
        assert ((a + b) + c)[i] == c[i - |a| - |b|];
      }
    }
  }

  /** A sequence starts with each of its prefixes. */
  lemma PrefixOfConcat<T>(a: seq<T>, b: seq<T>)
    ensures a <= a + b
  {
    assert (a + b)[..|a|] == a;
  }

  /** A sequence ends with the last piece it was built from. */
  lemma EndsWithPiece<T>(a: seq<T>, b: seq<T>, c: seq<T>)
    ensures (a + (b + c))[|a + (b + c)| - |c|..] == c
  {
    ConcatAssoc(a, b, c);
    assert ((a + b) + c)[|a + b|..] == c;
  }

  /** Being a prefix is transitive. */
  lemma PrefixTrans<T>(a: seq<T>, b: seq<T>, c: seq<T>)
    requires a <= b && b <= c
    ensures a <= c
  {
    assert c[..|a|] == b[..|a|];
  }

  /** What the tail holds, the whole holds. */
  lemma InAppended<T>(head: seq<T>, rest: seq<T>, x: T)
    requires x in rest
    ensures x in head + rest
  {
    var k :| 0 <= k < |rest| && rest[k] == x;
    assert (head + rest)[|head| + k] == x;
  }

  /** Every position one further on. */
  function Shifted(ps: seq<nat>): (r: seq<nat>)
    ensures |r| == |ps| && forall k :: 0 <= k < |r| ==> r[k] == ps[k] + 1
  {
    seq(|ps|, k requires 0 <= k < |ps| => ps[k] + 1)
  }

  /** The positions of the `true` entries of a mask, in order. */
  function Positions(mask: seq<bool>): seq<nat> {
    if mask == [] then []
    else if mask[0] then [0] + Shifted(Positions(mask[1..]))
    else Shifted(Positions(mask[1..]))
  }

  /** Entry `k` of the positions: 0 for a leading `true`, otherwise one more than an entry for the tail. */
  lemma PositionsAt(mask: seq<bool>, k: nat) returns (d: nat)
    requires k < |Positions(mask)|
    ensures mask != [] && d == (if mask[0] then 1 else 0)
    ensures |Positions(mask)| == d + |Positions(mask[1..])|
    ensures k < d ==> Positions(mask)[k] == 0
    ensures k >= d ==> Positions(mask)[k] == Positions(mask[1..])[k - d] + 1
  {
    d := if mask[0] then 1 else 0;
    assert Positions(mask) == (if mask[0] then [0] else []) + Shifted(Positions(mask[1..]));
  }

  /** The positions are those of `true` entries. */
  lemma {:induction false} PositionsInMask(mask: seq<bool>, k: nat)
    requires k < |Positions(mask)|
    ensures Positions(mask)[k] < |mask| && mask[Positions(mask)[k]]
  {
    var d := PositionsAt(mask, k);
    if k >= d {
      PositionsInMask(mask[1..], k - d);
      assert mask[1..][Positions(mask[1..])[k - d]] == mask[Positions(mask)[k]];
    }
  }

  /** The positions increase. */
  lemma {:induction false} PositionsIncrease(mask: seq<bool>, k: nat, l: nat)
    requires k < l < |Positions(mask)|
    ensures Positions(mask)[k] < Positions(mask)[l]
  {
    var d := PositionsAt(mask, k);
    var d' := PositionsAt(mask, l);
    if k >= d {
      PositionsIncrease(mask[1..], k - d, l - d);
    }
  }

  /** Every `true` entry has its position listed. */
  lemma {:induction false} PositionsComplete(mask: seq<bool>, j: nat)
    requires j < |mask| && mask[j]
    ensures j in Positions(mask)
  {
    var tail := mask[1..];
    var d := if mask[0] then 1 else 0;
    var r := Positions(mask);
    assert r == (if mask[0] then [0] else []) + Shifted(Positions(tail));
    if j == 0 {
      assert r[0] == 0;
    } else {
      assert tail[j - 1];
      PositionsComplete(tail, j - 1);
      var k :| 0 <= k < |Positions(tail)| && Positions(tail)[k] == j - 1;
      assert r[k + d] == j;
    }
  }
}
