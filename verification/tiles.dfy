/** Tiles (`PaiT`), tile kinds and the orderings and sums used throughout. */
module Tiles {

  /** Number of tile kinds: 9 man, 9 pin, 9 sou, 7 honours. */
  const KINDS: nat := 34

  /** A physical tile: kind `paiNum` in 0..33 and copy id. The boolean flags of
      `PaiT` (nakare, riichi, tsumogiri) are never set by the modelled code. */
  datatype Pai = Pai(paiNum: nat, id: nat)

  /** Default `PaiT`: kind 0, id 0. */
  const DefaultPai: Pai := Pai(0, 0)

  /** `PaiT::is_valid` as written: rejects id >= 4 and kind >= 33. */
  predicate IsValidAsWritten(p: Pai) {
    !(p.id >= 4) && !(p.paiNum >= 33)
  }

  /** The evidently intended check: kind 33 (the red dragon) is a real kind. */
  predicate IsValid(p: Pai) {
    p.id < 4 && p.paiNum < KINDS
  }

  lemma IsValidAsWrittenIff(p: Pai)
    ensures !IsValidAsWritten(p) <==> p.id >= 4 || p.paiNum >= 33
  {
  }

  /** The as-written check refuses the red dragon, which the deck and the
      dora successor table both treat as a real kind. */
  lemma IsValidAsWrittenRejectsChun()
    ensures Pai(33, 0).paiNum < KINDS
    ensures !IsValidAsWritten(Pai(33, 0))
    ensures IsValid(Pai(33, 0))
  {
  }

  /** The corrected check accepts exactly the 136 (kind, id) pairs of a deck
      numbered 0..3, and agrees with the as-written one everywhere else. */
  lemma IsValidCorrected(p: Pai)
    ensures IsValid(p) <==> p.paiNum < 34 && p.id < 4
    ensures p.paiNum != 33 ==> (IsValid(p) <==> IsValidAsWritten(p))
  {
  }

  /** Derived ordering of `PaiT` used by `sort_unstable`: by kind, then id. */
  predicate PaiLe(a: Pai, b: Pai) {
    a.paiNum < b.paiNum || (a.paiNum == b.paiNum && a.id <= b.id)
  }

  predicate Sorted(s: seq<Pai>) {
    forall i, j :: 0 <= i < j < |s| ==> PaiLe(s[i], s[j])
  }

  /** Insert `p` into sorted `s`, keeping it sorted. */
  function Insert(p: Pai, s: seq<Pai>): (r: seq<Pai>)
    requires Sorted(s)
    ensures Sorted(r)
    ensures multiset(r) == multiset(s) + multiset{p}
    ensures |r| == |s| + 1
  {
    if |s| == 0 then [p]
    else if PaiLe(p, s[0]) then
      assert forall i :: 0 <= i < |s| ==> PaiLe(s[0], s[i]);
      [p] + s
    else
      var tail := Insert(p, s[1..]);
      assert s == [s[0]] + s[1..];
      assert forall i :: 0 <= i < |tail| ==> tail[i] in multiset(s[1..]) + multiset{p};
      assert forall x :: x in multiset(s[1..]) ==> PaiLe(s[0], x) by {
        forall x | x in multiset(s[1..]) ensures PaiLe(s[0], x) {
          var k :| 0 <= k < |s[1..]| && s[1..][k] == x;
          assert x == s[k + 1];
        }
      }
      [s[0]] + tail
  }

  /** `sort_unstable` on tiles: a sorted permutation of the input. (Tiles
      that compare equal are identical, so stability does not matter.) */
  function Sort(s: seq<Pai>): (r: seq<Pai>)
    ensures Sorted(r)
    ensures multiset(r) == multiset(s)
    ensures |r| == |s|
  {
    if |s| == 0 then []
    else
      assert s == [s[0]] + s[1..];
      Insert(s[0], Sort(s[1..]))
  }

  /** Sum of a sequence of integers. */
  function Sum(s: seq<int>): int {
    if |s| == 0 then 0 else s[0] + Sum(s[1..])
  }

  lemma {:induction false} SumAppend(a: seq<int>, b: seq<int>)
    ensures Sum(a + b) == Sum(a) + Sum(b)
  {
    if |a| == 0 {
      assert a + b == b;
    } else {
      assert (a + b)[1..] == a[1..] + b;
      SumAppend(a[1..], b);
    }
  }

  lemma {:induction false} SumUpdate(s: seq<int>, i: nat, v: int)
    requires i < |s|
    ensures Sum(s[i := v]) == Sum(s) - s[i] + v
  {
    if i == 0 {
      assert s[i := v][1..] == s[1..];
    } else {
      assert s[i := v][1..] == s[1..][i - 1 := v];
      SumUpdate(s[1..], i - 1, v);
    }
  }

  predicate NonNegative(s: seq<int>) {
    forall i :: 0 <= i < |s| ==> s[i] >= 0
  }

  lemma {:induction false} SumNonNegative(s: seq<int>)
    requires NonNegative(s)
    ensures Sum(s) >= 0
  {
    if |s| > 0 {
      SumNonNegative(s[1..]);
    }
  }

  /** A sequence of `n` zeros. */
  function Zeros(n: nat): (r: seq<int>)
    ensures |r| == n
    ensures forall i :: 0 <= i < n ==> r[i] == 0
  {
    seq(n, _ => 0)
  }

  lemma {:induction false} SumZeros(n: nat)
    ensures Sum(Zeros(n)) == 0
  {
    if n > 0 {
      assert Zeros(n)[1..] == Zeros(n - 1);
      SumZeros(n - 1);
    }
  }
}
