/** What the per-suit search of `mentsu_count` computes, stated against an
    exhaustive reference: the list of every triple the search explores. */
module ShantenSearch {
  import opened Tiles
  import opened Shanten

  /** A triple with one more completed group. */
  function BumpTriple(t: Triple): Triple {
    Triple(t.mentsu + 1, t.tahtsu, t.koritsu)
  }

  function BumpAll(s: seq<Triple>): (r: seq<Triple>)
    ensures |r| == |s|
    ensures forall i :: 0 <= i < |s| ==> r[i] == BumpTriple(s[i])
  {
    seq(|s|, i requires 0 <= i < |s| => BumpTriple(s[i]))
  }

  /** Every triple the search reaches from rank `n`: the leaves of the
      skip / run / triplet recursion, each closed by `tahtsu_koritsu_count`. */
  ghost function Leaves(h: seq<int>, n: nat): (r: seq<Triple>)
    requires |h| == 9
    ensures |r| > 0
    decreases PosSum(h), 9 - n
  {
    if n >= 9 then [TahtsuKoritsuCount(h).fewestKoritsu]
    else
      var skip := Leaves(h, n + 1);
      var runs :=
        if RunAt(h, n) then
          RunShrinks(h, n);
          BumpAll(Leaves(TakeRun(h, n), n))
        else [];
      var triplets :=
        if TripletAt(h, n) then
          TripletShrinks(h, n);
          BumpAll(Leaves(TakeTriplet(h, n), n))
        else [];
      skip + runs + triplets
  }

  /** `a` has no more isolated tiles than `b` (ties: no more partial groups). */
  predicate KoritsuLe(a: Triple, b: Triple) {
    !FewerKoritsu(b, a)
  }

  /** `a` has at least as many groups as `b` (ties: at least as many partial groups). */
  predicate MentsuGe(a: Triple, b: Triple) {
    !MoreMentsu(b, a)
  }

  /** `e` holds an extreme of each kind among the triples `l`. */
  predicate Extremal(e: Extremes, l: seq<Triple>) {
    && e.fewestKoritsu in l && e.mostMentsu in l
    && (forall x :: x in l ==> KoritsuLe(e.fewestKoritsu, x))
    && (forall x :: x in l ==> MentsuGe(e.mostMentsu, x))
  }

  /** Entry [0] of `mentsu_count` is an explored triple with the fewest
      isolated tiles (ties: fewest partial groups); entry [1] is an explored
      triple with the most groups (ties: most partial groups). */
  lemma {:induction false} MentsuCountExtremal(h: seq<int>, n: nat)
    requires |h| == 9
    ensures Extremal(MentsuCount(h, n), Leaves(h, n))
    decreases PosSum(h), 9 - n
  {
    if n < 9 {
      MentsuCountExtremal(h, n + 1);
      var skip := MentsuCount(h, n + 1);
      var afterRun := skip;
      var lRun: seq<Triple> := [];
      if RunAt(h, n) {
        RunShrinks(h, n);
        var h' := TakeRun(h, n);
        MentsuCountExtremal(h', n);
        BumpPreservesExtremes(MentsuCount(h', n), Leaves(h', n));
        lRun := BumpAll(Leaves(h', n));
        BetterExtremal(skip, Leaves(h, n + 1), Bump(MentsuCount(h', n)), lRun);
        afterRun := Better(skip, Bump(MentsuCount(h', n)));
      } else {
        assert Leaves(h, n + 1) + lRun == Leaves(h, n + 1);
      }
      var lTrip: seq<Triple> := [];
      var result := afterRun;
      if TripletAt(h, n) {
        TripletShrinks(h, n);
        var h' := TakeTriplet(h, n);
        MentsuCountExtremal(h', n);
        BumpPreservesExtremes(MentsuCount(h', n), Leaves(h', n));
        lTrip := BumpAll(Leaves(h', n));
        BetterExtremal(afterRun, Leaves(h, n + 1) + lRun, Bump(MentsuCount(h', n)), lTrip);
        result := Better(afterRun, Bump(MentsuCount(h', n)));
      } else {
        assert Leaves(h, n + 1) + lRun + lTrip == Leaves(h, n + 1) + lRun;
      }
      assert MentsuCount(h, n) == result;
      assert Leaves(h, n) == Leaves(h, n + 1) + lRun + lTrip;
    }
  }

  /** Merging two branches keeps, for each extreme, the better one. */
  lemma BetterExtremal(cur: Extremes, l1: seq<Triple>, r: Extremes, l2: seq<Triple>)
    requires Extremal(cur, l1) && Extremal(r, l2)
    ensures Extremal(Better(cur, r), l1 + l2)
  {
    forall x | x in l1 + l2
      ensures KoritsuLe(Better(cur, r).fewestKoritsu, x) && MentsuGe(Better(cur, r).mostMentsu, x)
    {
      if x in l1 {} else { assert x in l2; }
    }
  }

  /** Adding one group to every triple keeps the extremes extreme. */
  lemma BumpPreservesExtremes(e: Extremes, l: seq<Triple>)
    requires Extremal(e, l)
    ensures Extremal(Bump(e), BumpAll(l))
  {
    var b := BumpAll(l);
    var i :| 0 <= i < |l| && l[i] == e.fewestKoritsu;
    assert b[i] == Bump(e).fewestKoritsu;
    var j :| 0 <= j < |l| && l[j] == e.mostMentsu;
    assert b[j] == Bump(e).mostMentsu;
    forall x | x in b
      ensures KoritsuLe(Bump(e).fewestKoritsu, x) && MentsuGe(Bump(e).mostMentsu, x)
    {
      var k :| 0 <= k < |b| && b[k] == x;
      assert l[k] in l;
    }
  }

  /** Neither extreme is worse than the "skip this rank" branch. */
  lemma MentsuCountBeatsSkip(h: seq<int>, n: nat)
    requires |h| == 9 && n < 9
    ensures KoritsuLe(MentsuCount(h, n).fewestKoritsu, MentsuCount(h, n + 1).fewestKoritsu)
    ensures MentsuGe(MentsuCount(h, n).mostMentsu, MentsuCount(h, n + 1).mostMentsu)
  {
    MentsuCountExtremal(h, n);
    MentsuCountExtremal(h, n + 1);
    assert Leaves(h, n)[..|Leaves(h, n + 1)|] == Leaves(h, n + 1);
    assert MentsuCount(h, n + 1).fewestKoritsu in Leaves(h, n);
    assert MentsuCount(h, n + 1).mostMentsu in Leaves(h, n);
  }
}
