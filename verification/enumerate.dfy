/** Enumeration of every way to split a hand into one pair and runs /
    triplets: `all_of_suit_mentsu`, `all_of_mentsu_without_atama` and
    `all_of_mentsu`. */
module Enumerate {
  import opened Tiles
  import opened Melds
  import opened Shanten
  import opened ShantenComplete

  /** Meld `m` put in front of every decomposition (`x.insert(0, m)`). */
  function Prepend(m: Mentsu, ds: seq<seq<Mentsu>>): (r: seq<seq<Mentsu>>)
    ensures |r| == |ds|
    ensures forall i :: 0 <= i < |ds| ==> r[i] == [m] + ds[i]
  {
    seq(|ds|, i requires 0 <= i < |ds| => [m] + ds[i])
  }

  /** `all_of_suit_mentsu(suit, h, n)`: every way to take runs and triplets
      out of the counts `h` of one numbered suit, from rank `n` on. A rank
      with tiles left over that can start neither ends the decomposition. */
  function AllOfSuitMentsu(suit: nat, h: seq<int>, n: nat): (r: seq<seq<Mentsu>>)
    requires |h| == 9
    ensures |r| > 0
    decreases PosSum(h), 9 - n
  {
    if n >= 9 then [[]]
    else if h[n] == 0 then AllOfSuitMentsu(suit, h, n + 1)
    else
      var shuntsu :=
        if RunAt(h, n) then
          RunShrinks(h, n);
          Prepend(ShuntsuOf(suit * 9 + n), AllOfSuitMentsu(suit, TakeRun(h, n), n))
        else [];
      var koutsu :=
        if TripletAt(h, n) then
          TripletShrinks(h, n);
          Prepend(KoutsuOf(suit * 9 + n), AllOfSuitMentsu(suit, TakeTriplet(h, n), n + 1))
        else [];
      if |shuntsu| == 0 && |koutsu| == 0 then [[]] else shuntsu + koutsu
  }

  // ---------------------------------------------------------------------
  // Melds of one suit read as groups.
  // ---------------------------------------------------------------------

  /** The meld the enumeration builds for a group of suit `suit`. */
  function MeldOf(suit: nat, g: SuitGroup): (m: Mentsu)
    ensures g.Run? ==> m == ShuntsuOf(suit * 9 + g.start)
    ensures g.Set? ==> m == KoutsuOf(suit * 9 + g.rank)
  {
    match g
    case Run(s) => ShuntsuOf(suit * 9 + s)
    case Set(k) => KoutsuOf(suit * 9 + k)
  }

  /** The group a run or triplet meld of suit `suit` stands for. */
  function GroupOf(suit: nat, m: Mentsu): SuitGroup {
    var rank := if Head(m) >= suit * 9 then Head(m) - suit * 9 else 0;
    if m.mentsuType == Shuntsu then Run(rank) else Set(rank)
  }

  function GroupsOf(suit: nat, d: seq<Mentsu>): (r: seq<SuitGroup>)
    ensures |r| == |d|
    ensures forall i :: 0 <= i < |d| ==> r[i] == GroupOf(suit, d[i])
  {
    seq(|d|, i requires 0 <= i < |d| => GroupOf(suit, d[i]))
  }

  function MeldsOf(suit: nat, gs: seq<SuitGroup>): (r: seq<Mentsu>)
    ensures |r| == |gs|
    ensures forall i :: 0 <= i < |gs| ==> r[i] == MeldOf(suit, gs[i])
  {
    seq(|gs|, i requires 0 <= i < |gs| => MeldOf(suit, gs[i]))
  }

  /** `d` consists of the canonical melds of well-formed groups that start at
      rank `n` or later and that the counts `h` hold together. */
  predicate SuitDecomposition(suit: nat, h: seq<int>, n: nat, d: seq<Mentsu>)
    requires |h| == 9
  {
    && (forall i :: 0 <= i < |d| ==> d[i] == MeldOf(suit, GroupOf(suit, d[i])))
    && GroupsFrom(GroupsOf(suit, d), n)
    && SuitCovers(h, GroupsOf(suit, d))
  }

  /** Reading a group's meld back gives the group. */
  lemma GroupOfMeldOf(suit: nat, g: SuitGroup)
    ensures GroupOf(suit, MeldOf(suit, g)) == g
  {
  }

  lemma UsesAllCons(g: SuitGroup, gs: seq<SuitGroup>, r: nat)
    ensures UsesAll([g] + gs, r) == Uses(g, r) + UsesAll(gs, r)
  {
    assert ([g] + gs)[1..] == gs;
  }

  /** A group's meld in front of a decomposition of what the group leaves. */
  lemma ConsDecomposition(suit: nat, h: seq<int>, h': seq<int>, n: nat, n': nat, g: SuitGroup, d': seq<Mentsu>)
    requires |h| == 9 && |h'| == 9 && ValidGroup(g) && First(g) == n && n <= n'
    requires forall r :: 0 <= r < 9 ==> h'[r] == h[r] - Uses(g, r)
    requires SuitDecomposition(suit, h', n', d')
    ensures SuitDecomposition(suit, h, n, [MeldOf(suit, g)] + d')
  {
    var d := [MeldOf(suit, g)] + d';
    var gs' := GroupsOf(suit, d');
    GroupOfMeldOf(suit, g);
    assert GroupsOf(suit, d) == [g] + gs';
    forall r | 0 <= r < 9
      ensures h[r] >= UsesAll([g] + gs', r)
    {
      UsesAllCons(g, gs', r);
    }
  }

  lemma RunDecomposition(suit: nat, h: seq<int>, n: nat, d: seq<Mentsu>)
    requires |h| == 9 && RunAt(h, n) && SuitDecomposition(suit, TakeRun(h, n), n, d)
    ensures SuitDecomposition(suit, h, n, [ShuntsuOf(suit * 9 + n)] + d)
  {
    ConsDecomposition(suit, h, TakeRun(h, n), n, n, Run(n), d);
  }

  lemma TripletDecomposition(suit: nat, h: seq<int>, n: nat, d: seq<Mentsu>)
    requires |h| == 9 && TripletAt(h, n) && SuitDecomposition(suit, TakeTriplet(h, n), n + 1, d)
    ensures SuitDecomposition(suit, h, n, [KoutsuOf(suit * 9 + n)] + d)
  {
    ConsDecomposition(suit, h, TakeTriplet(h, n), n, n + 1, Set(n), d);
  }

  lemma EmptyDecomposition(suit: nat, h: seq<int>, n: nat)
    requires |h| == 9 && NonNegative(h)
    ensures SuitDecomposition(suit, h, n, [])
  {
    assert GroupsOf(suit, []) == [];
  }

  lemma LaterDecomposition(suit: nat, h: seq<int>, n: nat, d: seq<Mentsu>)
    requires |h| == 9 && SuitDecomposition(suit, h, n + 1, d)
    ensures SuitDecomposition(suit, h, n, d)
  {
  }

  /** Where a listed decomposition came from: the fallback `[[]]`, the
      `i`-th decomposition after a run, or the `i`-th after a triplet. */
  datatype Branch = Fallback | AfterRun(i: nat) | AfterTriplet(i: nat)

  /** The three ways `all_of_suit_mentsu` builds its list at a rank with tiles. */
  lemma AllOfSuitMentsuCase(suit: nat, h: seq<int>, n: nat, d: seq<Mentsu>) returns (b: Branch)
    requires |h| == 9 && n < 9 && h[n] != 0 && d in AllOfSuitMentsu(suit, h, n)
    ensures b.Fallback? ==> d == []
    ensures b.AfterRun? ==> RunAt(h, n) && b.i < |AllOfSuitMentsu(suit, TakeRun(h, n), n)|
                            && d == [ShuntsuOf(suit * 9 + n)] + AllOfSuitMentsu(suit, TakeRun(h, n), n)[b.i]
    ensures b.AfterTriplet? ==> TripletAt(h, n) && b.i < |AllOfSuitMentsu(suit, TakeTriplet(h, n), n + 1)|
                                && d == [KoutsuOf(suit * 9 + n)] + AllOfSuitMentsu(suit, TakeTriplet(h, n), n + 1)[b.i]
  {
    var shuntsu :=
      if RunAt(h, n) then Prepend(ShuntsuOf(suit * 9 + n), AllOfSuitMentsu(suit, TakeRun(h, n), n)) else [];
    var koutsu :=
      if TripletAt(h, n) then Prepend(KoutsuOf(suit * 9 + n), AllOfSuitMentsu(suit, TakeTriplet(h, n), n + 1)) else [];
    assert AllOfSuitMentsu(suit, h, n) == if |shuntsu| == 0 && |koutsu| == 0 then [[]] else shuntsu + koutsu;
    if d in shuntsu {
      var i :| 0 <= i < |shuntsu| && shuntsu[i] == d;
      b := AfterRun(i);
    } else if d in koutsu {
      var i :| 0 <= i < |koutsu| && koutsu[i] == d;
      b := AfterTriplet(i);
    } else {
      b := Fallback;
    }
  }

  /** Every decomposition `all_of_suit_mentsu` lists is made of canonical
      runs and triplets of the suit, from rank `n` on, whose tiles the counts
      hold. */
  lemma {:induction false} AllOfSuitMentsuSound(suit: nat, h: seq<int>, n: nat, d: seq<Mentsu>)
    requires |h| == 9 && NonNegative(h) && d in AllOfSuitMentsu(suit, h, n)
    ensures SuitDecomposition(suit, h, n, d)
    decreases PosSum(h), 9 - n
  {
    if n >= 9 {
      assert d == [];
      EmptyDecomposition(suit, h, n);
    } else if h[n] == 0 {
      AllOfSuitMentsuSound(suit, h, n + 1, d);
      LaterDecomposition(suit, h, n, d);
    } else {
      var b := AllOfSuitMentsuCase(suit, h, n, d);
      match b
      case Fallback =>
        EmptyDecomposition(suit, h, n);
      case AfterRun(i) =>
        RunShrinks(h, n);
        var sub := AllOfSuitMentsu(suit, TakeRun(h, n), n)[i];
        AllOfSuitMentsuSound(suit, TakeRun(h, n), n, sub);
        RunDecomposition(suit, h, n, sub);
      case AfterTriplet(i) =>
        TripletShrinks(h, n);
        var sub := AllOfSuitMentsu(suit, TakeTriplet(h, n), n + 1)[i];
        AllOfSuitMentsuSound(suit, TakeTriplet(h, n), n + 1, sub);
        TripletDecomposition(suit, h, n, sub);
    }
  }

  /** The counts `h` are exactly the tiles of the groups `gs`. */
  predicate ExactCover(h: seq<int>, gs: seq<SuitGroup>)
    requires |h| == 9
  {
    forall r :: 0 <= r < 9 ==> h[r] == UsesAll(gs, r)
  }

  /** No kind has more than its four physical copies. */
  predicate AtMostFour(h: seq<int>) {
    forall r :: 0 <= r < |h| ==> h[r] <= 4
  }

  /** Some group uses a rank whose total use is positive. */
  lemma UsesAllPositive(gs: seq<SuitGroup>, r: nat) returns (i: nat)
    requires UsesAll(gs, r) > 0
    ensures i < |gs| && Uses(gs[i], r) > 0
  {
    if Uses(gs[0], r) > 0 {
      i := 0;
    } else {
      var j := UsesAllPositive(gs[1..], r);
      i := j + 1;
    }
  }

  /** Taking group `i` out of an exact cover leaves an exact cover of the rest. */
  lemma ExactCoverRemove(h: seq<int>, h': seq<int>, gs: seq<SuitGroup>, i: nat)
    requires |h| == 9 && |h'| == 9 && i < |gs| && ExactCover(h, gs)
    requires forall r :: 0 <= r < 9 ==> h'[r] == h[r] - Uses(gs[i], r)
    ensures ExactCover(h', gs[..i] + gs[i + 1..])
    ensures multiset(gs) == multiset{gs[i]} + multiset(gs[..i] + gs[i + 1..])
  {
    forall r | 0 <= r < 9
      ensures h'[r] == UsesAll(gs[..i] + gs[i + 1..], r)
    {
      UsesAllRemove(gs, i, r);
    }
    assert gs == gs[..i] + [gs[i]] + gs[i + 1..];
  }

  /** At a rank with no tiles no group of an exact cover starts there. */
  lemma EmptyRankSkipped(h: seq<int>, gs: seq<SuitGroup>, n: nat)
    requires |h| == 9 && n < 9 && ExactCover(h, gs) && GroupsFrom(gs, n) && h[n] == 0
    ensures GroupsFrom(gs, n + 1)
  {
    forall i | 0 <= i < |gs|
      ensures First(gs[i]) >= n + 1
    {
      UsesAllRemove(gs, i, n);
    }
  }

  /** A run at rank `n` of an exact cover can be taken first. */
  lemma CompleteAfterRun(suit: nat, h: seq<int>, n: nat, gs: seq<SuitGroup>, i: nat, d': seq<Mentsu>)
    requires |h| == 9 && n < 9 && i < |gs| && gs[i] == Run(n) && ExactCover(h, gs) && GroupsFrom(gs, n)
    ensures RunAt(h, n) && h[n] != 0
    ensures ExactCover(TakeRun(h, n), gs[..i] + gs[i + 1..]) && GroupsFrom(gs[..i] + gs[i + 1..], n)
    ensures multiset(GroupsOf(suit, d')) == multiset(gs[..i] + gs[i + 1..]) ==>
              multiset(GroupsOf(suit, [ShuntsuOf(suit * 9 + n)] + d')) == multiset(gs)
  {
    assert ValidGroup(gs[i]);
    UsesAllRemove(gs, i, n);
    UsesAllRemove(gs, i, n + 1);
    UsesAllRemove(gs, i, n + 2);
    ExactCoverRemove(h, TakeRun(h, n), gs, i);
    GroupsFromRemove(gs, i, n);
    GroupOfMeldOf(suit, Run(n));
    assert GroupsOf(suit, [ShuntsuOf(suit * 9 + n)] + d') == [Run(n)] + GroupsOf(suit, d');
  }

  /** Without a run at rank `n`, some group of an exact cover is the
      triplet of rank `n`. */
  lemma FindTriplet(h: seq<int>, n: nat, gs: seq<SuitGroup>) returns (i: nat)
    requires |h| == 9 && n < 9 && ExactCover(h, gs) && GroupsFrom(gs, n) && h[n] != 0
    requires Run(n) !in gs
    ensures i < |gs| && gs[i] == Set(n)
  {
    i := UsesAllPositive(gs, n);
    assert gs[i] in gs;
  }

  /** ... and, with at most four copies, it is the only group there. */
  lemma CompleteAfterTriplet(suit: nat, h: seq<int>, n: nat, gs: seq<SuitGroup>, i: nat, d': seq<Mentsu>)
    requires |h| == 9 && n < 9 && ExactCover(h, gs) && GroupsFrom(gs, n) && AtMostFour(h)
    requires Run(n) !in gs && i < |gs| && gs[i] == Set(n)
    ensures TripletAt(h, n) && h[n] != 0
    ensures ExactCover(TakeTriplet(h, n), gs[..i] + gs[i + 1..]) && GroupsFrom(gs[..i] + gs[i + 1..], n + 1)
    ensures multiset(GroupsOf(suit, d')) == multiset(gs[..i] + gs[i + 1..]) ==>
              multiset(GroupsOf(suit, [KoutsuOf(suit * 9 + n)] + d')) == multiset(gs)
  {
    UsesAllRemove(gs, i, n);
    ExactCoverRemove(h, TakeTriplet(h, n), gs, i);
    var rest := gs[..i] + gs[i + 1..];
    GroupsFromRemove(gs, i, n);
    forall j | 0 <= j < |rest|
      ensures ValidGroup(rest[j]) && First(rest[j]) >= n + 1
    {
      UsesAllRemove(rest, j, n);
      assert rest[j] in multiset(rest);
    }
    GroupOfMeldOf(suit, Set(n));
    assert GroupsOf(suit, [KoutsuOf(suit * 9 + n)] + d') == [Set(n)] + GroupsOf(suit, d');
  }

  /** A run in front of a decomposition listed after taking it is listed. */
  lemma RunListed(suit: nat, h: seq<int>, n: nat, d: seq<Mentsu>)
    requires |h| == 9 && n < 9 && h[n] != 0 && RunAt(h, n) && d in AllOfSuitMentsu(suit, TakeRun(h, n), n)
    ensures [ShuntsuOf(suit * 9 + n)] + d in AllOfSuitMentsu(suit, h, n)
  {
    var sub := AllOfSuitMentsu(suit, TakeRun(h, n), n);
    var shuntsu := Prepend(ShuntsuOf(suit * 9 + n), sub);
    var koutsu :=
      if TripletAt(h, n) then Prepend(KoutsuOf(suit * 9 + n), AllOfSuitMentsu(suit, TakeTriplet(h, n), n + 1)) else [];
    assert AllOfSuitMentsu(suit, h, n) == shuntsu + koutsu;
    var j :| 0 <= j < |sub| && sub[j] == d;
    assert shuntsu[j] == [ShuntsuOf(suit * 9 + n)] + d;
  }

  /** A triplet in front of a decomposition listed after taking it is listed. */
  lemma TripletListed(suit: nat, h: seq<int>, n: nat, d: seq<Mentsu>)
    requires |h| == 9 && n < 9 && h[n] != 0 && TripletAt(h, n) && d in AllOfSuitMentsu(suit, TakeTriplet(h, n), n + 1)
    ensures [KoutsuOf(suit * 9 + n)] + d in AllOfSuitMentsu(suit, h, n)
  {
    var sub := AllOfSuitMentsu(suit, TakeTriplet(h, n), n + 1);
    var shuntsu :=
      if RunAt(h, n) then Prepend(ShuntsuOf(suit * 9 + n), AllOfSuitMentsu(suit, TakeRun(h, n), n)) else [];
    var koutsu := Prepend(KoutsuOf(suit * 9 + n), sub);
    assert AllOfSuitMentsu(suit, h, n) == shuntsu + koutsu;
    var j :| 0 <= j < |sub| && sub[j] == d;
    assert koutsu[j] == [KoutsuOf(suit * 9 + n)] + d;
  }

  lemma LaterListed(suit: nat, h: seq<int>, n: nat, d: seq<Mentsu>)
    requires |h| == 9 && n < 9 && h[n] == 0 && d in AllOfSuitMentsu(suit, h, n + 1)
    ensures d in AllOfSuitMentsu(suit, h, n)
  {
  }

  /** Every way to split the suit exactly into runs and triplets (with at most
      four copies of a kind) is listed by `all_of_suit_mentsu`, up to the
      order of its groups. */
  lemma {:induction false} AllOfSuitMentsuComplete(suit: nat, h: seq<int>, n: nat, gs: seq<SuitGroup>)
    returns (d: seq<Mentsu>)
    requires |h| == 9 && ExactCover(h, gs) && GroupsFrom(gs, n) && AtMostFour(h)
    ensures d in AllOfSuitMentsu(suit, h, n)
    ensures multiset(GroupsOf(suit, d)) == multiset(gs)
    decreases PosSum(h), 9 - n
  {
    if n >= 9 {
      if |gs| > 0 {
        FirstGroup(gs, n);
        assert false;
      }
      d := [];
    } else if h[n] == 0 {
      EmptyRankSkipped(h, gs, n);
      d := AllOfSuitMentsuComplete(suit, h, n + 1, gs);
      LaterListed(suit, h, n, d);
    } else if i :| 0 <= i < |gs| && gs[i] == Run(n) {
      var rest := gs[..i] + gs[i + 1..];
      CompleteAfterRun(suit, h, n, gs, i, []);
      RunShrinks(h, n);
      var d' := AllOfSuitMentsuComplete(suit, TakeRun(h, n), n, rest);
      CompleteAfterRun(suit, h, n, gs, i, d');
      RunListed(suit, h, n, d');
      d := [ShuntsuOf(suit * 9 + n)] + d';
    } else {
      var i := FindTriplet(h, n, gs);
      var rest := gs[..i] + gs[i + 1..];
      CompleteAfterTriplet(suit, h, n, gs, i, []);
      TripletShrinks(h, n);
      var d' := AllOfSuitMentsuComplete(suit, TakeTriplet(h, n), n + 1, rest);
      CompleteAfterTriplet(suit, h, n, gs, i, d');
      TripletListed(suit, h, n, d');
      d := [KoutsuOf(suit * 9 + n)] + d';
    }
  }

  // ---------------------------------------------------------------------
  // all_of_mentsu_without_atama / all_of_mentsu.
  // ---------------------------------------------------------------------

  /** Honour triplets, one per honour (from `n` on) with three or more tiles. */
  function HonorKoutsu(z: seq<int>, n: nat): (r: seq<Mentsu>)
    requires n <= |z|
    decreases |z| - n
  {
    if n == |z| then []
    else (if z[n] >= 3 then [KoutsuOf(27 + n)] else []) + HonorKoutsu(z, n + 1)
  }

  /** `iproduct!(a, b).map(|(x, y)| [x, y].concat())`: `a` varies slowest. */
  function Cross(a: seq<seq<Mentsu>>, b: seq<seq<Mentsu>>): (r: seq<seq<Mentsu>>)
    ensures |a| > 0 && |b| > 0 ==> |r| > 0
  {
    if |a| == 0 then []
    else seq(|b|, j requires 0 <= j < |b| => a[0] + b[j]) + Cross(a[1..], b)
  }

  lemma {:induction false} CrossMember(a: seq<seq<Mentsu>>, b: seq<seq<Mentsu>>, x: seq<Mentsu>, y: seq<Mentsu>)
    requires x in a && y in b
    ensures x + y in Cross(a, b)
  {
    var row := seq(|b|, j requires 0 <= j < |b| => a[0] + b[j]);
    assert Cross(a, b) == row + Cross(a[1..], b);
    if x == a[0] {
      var j :| 0 <= j < |b| && b[j] == y;
      assert row[j] == x + y;
    } else {
      CrossMember(a[1..], b, x, y);
    }
  }

  lemma {:induction false} CrossSplit(a: seq<seq<Mentsu>>, b: seq<seq<Mentsu>>, z: seq<Mentsu>) returns (x: seq<Mentsu>, y: seq<Mentsu>)
    requires z in Cross(a, b)
    ensures x in a && y in b && z == x + y
  {
    var row := seq(|b|, j requires 0 <= j < |b| => a[0] + b[j]);
    assert Cross(a, b) == row + Cross(a[1..], b);
    if z in row {
      var j :| 0 <= j < |b| && row[j] == z;
      x, y := a[0], b[j];
    } else {
      x, y := CrossSplit(a[1..], b, z);
    }
  }

  /** Every decomposition followed by the same melds `tail`. */
  function AppendAll(ds: seq<seq<Mentsu>>, tail: seq<Mentsu>): (r: seq<seq<Mentsu>>)
    ensures |r| == |ds|
    ensures forall i :: 0 <= i < |ds| ==> r[i] == ds[i] + tail
  {
    seq(|ds|, i requires 0 <= i < |ds| => ds[i] + tail)
  }

  /** `all_of_mentsu_without_atama`: every (man, pin, sou) combination of
      suit decompositions, each followed by the honour triplets. */
  function AllOfMentsuWithoutAtama(st: PaiState): (r: seq<seq<Mentsu>>)
    requires WellShaped(st)
    ensures |r| > 0
  {
    var man := AllOfSuitMentsu(0, st.m, 0);
    var pin := AllOfSuitMentsu(1, st.p, 0);
    var sou := AllOfSuitMentsu(2, st.s, 0);
    AppendAll(Cross(Cross(man, pin), sou), HonorKoutsu(st.z, 0))
  }

  /** The decompositions that take kind `k` as the pair, if it has two tiles. */
  function WithPair(st: PaiState, k: nat): seq<seq<Mentsu>>
    requires WellShaped(st) && k < KINDS
  {
    if Cell(st, k) >= 2 then Prepend(AtamaOf(k), AllOfMentsuWithoutAtama(RemovePair(st, k))) else []
  }

  /** Pair candidates of `all_of_mentsu` in the order tried: for each rank,
      man, pin, sou, then the honour of that index (ranks 0..6 only). */
  function AllOfMentsuPairOrder(): (r: seq<nat>)
    ensures |r| == KINDS
    ensures forall i :: 0 <= i < |r| ==> r[i] < KINDS
  {
    seq(28, i requires 0 <= i < 28 => (i % 4) * 9 + i / 4) + [7, 16, 25, 8, 17, 26]
  }

  function PairsFrom(st: PaiState, ks: seq<nat>): seq<seq<Mentsu>>
    requires WellShaped(st)
    requires forall i :: 0 <= i < |ks| ==> ks[i] < KINDS
  {
    if |ks| == 0 then []
    else WithPair(st, ks[0]) + PairsFrom(st, ks[1..])
  }

  /** `filter(|x| x.len() + n_fulo >= 5)`, keeping the order. */
  function KeepLong(ds: seq<seq<Mentsu>>, nFulo: nat): (r: seq<seq<Mentsu>>)
    ensures forall d :: d in r <==> d in ds && |d| + nFulo >= 5
    ensures |r| <= |ds|
  {
    if |ds| == 0 then []
    else (if |ds[0]| + nFulo >= 5 then [ds[0]] else []) + KeepLong(ds[1..], nFulo)
  }

  /** `all_of_mentsu(pai_state, n_fulo)`. */
  function AllOfMentsu(st: PaiState, nFulo: nat): seq<seq<Mentsu>>
    requires WellShaped(st)
  {
    KeepLong(PairsFrom(st, AllOfMentsuPairOrder()), nFulo)
  }

  // ---------------------------------------------------------------------
  // What the listed decompositions use.
  // ---------------------------------------------------------------------

  /** Tiles of kind `k` the melds `d` use. */
  function Use(d: seq<Mentsu>, k: nat): nat {
    multiset(Kinds(d))[k]
  }

  /** Every meld is a run or a triplet. */
  predicate GroupMelds(d: seq<Mentsu>) {
    forall i :: 0 <= i < |d| ==> d[i].mentsuType == Shuntsu || d[i].mentsuType == Koutsu
  }

  /** The melds use no more tiles of any kind than the state holds, and only
      real kinds. */
  ghost predicate Within(st: PaiState, d: seq<Mentsu>)
    requires WellShaped(st)
  {
    && (forall k :: 0 <= k < KINDS ==> Use(d, k) <= Cell(st, k))
    && (forall k: nat :: k >= KINDS ==> Use(d, k) == 0)
  }

  lemma UseCons(m: Mentsu, d: seq<Mentsu>, k: nat)
    ensures Use([m] + d, k) == multiset(MeldKinds(m))[k] + Use(d, k)
  {
    assert ([m] + d)[1..] == d;
  }

  /** Tiles of kind `k` in the canonical meld of a group of suit `suit`. */
  lemma MeldUse(suit: nat, g: SuitGroup, k: nat)
    requires ValidGroup(g)
    ensures multiset(MeldKinds(MeldOf(suit, g)))[k] == if suit * 9 <= k < suit * 9 + 9 then Uses(g, k - suit * 9) else 0
  {
    match g
    case Run(s) => CanonicalKinds(suit * 9 + s);
    case Set(x) => CanonicalKinds(suit * 9 + x);
  }

  /** The tiles of a suit's canonical melds are those of its groups. */
  lemma {:induction false} SuitKinds(suit: nat, d: seq<Mentsu>, gs: seq<SuitGroup>, k: nat)
    requires |d| == |gs| && GroupsFrom(gs, 0)
    requires forall i :: 0 <= i < |d| ==> d[i] == MeldOf(suit, gs[i])
    ensures Use(d, k) == if suit * 9 <= k < suit * 9 + 9 then UsesAll(gs, k - suit * 9) else 0
  {
    if |d| > 0 {
      GroupsFromRemove(gs, 0, 0);
      assert gs[1..] == gs[..0] + gs[0 + 1..];
      SuitKinds(suit, d[1..], gs[1..], k);
      assert d == [d[0]] + d[1..];
      UseCons(d[0], d[1..], k);
      MeldUse(suit, gs[0], k);
    }
  }

  lemma SuitGroupMelds(suit: nat, d: seq<Mentsu>, gs: seq<SuitGroup>)
    requires |d| == |gs|
    requires forall i :: 0 <= i < |d| ==> d[i] == MeldOf(suit, gs[i])
    ensures GroupMelds(d)
  {
  }

  /** The honour triplets use three tiles of each honour with three or more. */
  lemma {:induction false} HonorKinds(z: seq<int>, n: nat, k: nat)
    requires |z| == 7 && n <= 7
    ensures Use(HonorKoutsu(z, n), k) == if 27 + n <= k < KINDS && z[k - 27] >= 3 then 3 else 0
    decreases 7 - n
  {
    if n < 7 {
      HonorKinds(z, n + 1, k);
      var tail := HonorKoutsu(z, n + 1);
      if z[n] >= 3 {
        assert HonorKoutsu(z, n) == [KoutsuOf(27 + n)] + tail;
        UseCons(KoutsuOf(27 + n), tail, k);
        CanonicalKinds(27 + n);
        assert multiset(MeldKinds(KoutsuOf(27 + n)))[k] == if k == 27 + n then 3 else 0;
      } else {
        assert HonorKoutsu(z, n) == tail;
      }
    }
  }

  lemma {:induction false} HonorGroupMelds(z: seq<int>, n: nat)
    requires n <= |z|
    ensures GroupMelds(HonorKoutsu(z, n))
    decreases |z| - n
  {
    if n < |z| {
      HonorGroupMelds(z, n + 1);
      var head: seq<Mentsu> := if z[n] >= 3 then [KoutsuOf(27 + n)] else [];
      var tail := HonorKoutsu(z, n + 1);
      forall i | 0 <= i < |head + tail|
        ensures (head + tail)[i].mentsuType == Shuntsu || (head + tail)[i].mentsuType == Koutsu
      {
        if i >= |head| { assert (head + tail)[i] == tail[i - |head|]; }
      }
    }
  }

  /** A decomposition without the pair is one listed decomposition of each
      numbered suit followed by the honour triplets. */
  lemma WithoutAtamaSplit(st: PaiState, d: seq<Mentsu>) returns (dm: seq<Mentsu>, dp: seq<Mentsu>, ds: seq<Mentsu>)
    requires WellShaped(st) && d in AllOfMentsuWithoutAtama(st)
    ensures dm in AllOfSuitMentsu(0, st.m, 0) && dp in AllOfSuitMentsu(1, st.p, 0) && ds in AllOfSuitMentsu(2, st.s, 0)
    ensures d == dm + dp + ds + HonorKoutsu(st.z, 0)
  {
    var man := AllOfSuitMentsu(0, st.m, 0);
    var pin := AllOfSuitMentsu(1, st.p, 0);
    var sou := AllOfSuitMentsu(2, st.s, 0);
    var all := Cross(Cross(man, pin), sou);
    var i :| 0 <= i < |all| && d == all[i] + HonorKoutsu(st.z, 0);
    var mp, s := CrossSplit(Cross(man, pin), sou, all[i]);
    var m, p := CrossSplit(man, pin, mp);
    dm, dp, ds := m, p, s;
  }

  /** Use of each kind, split over the four parts of a decomposition. */
  lemma UseOfParts(dm: seq<Mentsu>, dp: seq<Mentsu>, ds: seq<Mentsu>, dz: seq<Mentsu>, k: nat)
    ensures Use(dm + dp + ds + dz, k) == Use(dm, k) + Use(dp, k) + Use(ds, k) + Use(dz, k)
  {
    KindsAppend(dm, dp);
    KindsAppend(dm + dp, ds);
    KindsAppend(dm + dp + ds, dz);
  }

  lemma GroupMeldsParts(dm: seq<Mentsu>, dp: seq<Mentsu>, ds: seq<Mentsu>, dz: seq<Mentsu>)
    requires GroupMelds(dm) && GroupMelds(dp) && GroupMelds(ds) && GroupMelds(dz)
    ensures GroupMelds(dm + dp + ds + dz)
  {
    var d := dm + dp + ds + dz;
    forall i | 0 <= i < |d|
      ensures d[i].mentsuType == Shuntsu || d[i].mentsuType == Koutsu
    {
      if i < |dm| { assert d[i] == dm[i]; }
      else if i < |dm| + |dp| { assert d[i] == dp[i - |dm|]; }
      else if i < |dm| + |dp| + |ds| { assert d[i] == ds[i - |dm| - |dp|]; }
      else { assert d[i] == dz[i - |dm| - |dp| - |ds|]; }
    }
  }

  /** What one suit's listed decomposition uses. */
  lemma SuitUse(suit: nat, h: seq<int>, d: seq<Mentsu>, k: nat)
    requires |h| == 9 && NonNegative(h) && d in AllOfSuitMentsu(suit, h, 0)
    ensures suit * 9 <= k < suit * 9 + 9 ==> Use(d, k) <= h[k - suit * 9]
    ensures !(suit * 9 <= k < suit * 9 + 9) ==> Use(d, k) == 0
  {
    AllOfSuitMentsuSound(suit, h, 0, d);
    SuitKinds(suit, d, GroupsOf(suit, d), k);
  }

  lemma SuitMelds(suit: nat, h: seq<int>, d: seq<Mentsu>)
    requires |h| == 9 && NonNegative(h) && d in AllOfSuitMentsu(suit, h, 0)
    ensures GroupMelds(d)
  {
    AllOfSuitMentsuSound(suit, h, 0, d);
    SuitGroupMelds(suit, d, GroupsOf(suit, d));
  }

  /** Every decomposition `all_of_mentsu_without_atama` lists is made of
      runs and triplets that the state holds. */
  lemma WithoutAtamaSound(st: PaiState, d: seq<Mentsu>)
    requires NonNegativeState(st) && d in AllOfMentsuWithoutAtama(st)
    ensures GroupMelds(d) && Within(st, d)
  {
    var dm, dp, ds := WithoutAtamaSplit(st, d);
    var dz := HonorKoutsu(st.z, 0);
    SuitMelds(0, st.m, dm);
    SuitMelds(1, st.p, dp);
    SuitMelds(2, st.s, ds);
    HonorGroupMelds(st.z, 0);
    GroupMeldsParts(dm, dp, ds, dz);
    forall k: nat
      ensures k < KINDS ==> Use(d, k) <= Cell(st, k)
      ensures k >= KINDS ==> Use(d, k) == 0
    {
      PartsUse(st, dm, dp, ds, k);
    }
  }

  /** The four parts of a decomposition together stay within the state at kind `k`. */
  lemma PartsUse(st: PaiState, dm: seq<Mentsu>, dp: seq<Mentsu>, ds: seq<Mentsu>, k: nat)
    requires NonNegativeState(st)
    requires dm in AllOfSuitMentsu(0, st.m, 0) && dp in AllOfSuitMentsu(1, st.p, 0) && ds in AllOfSuitMentsu(2, st.s, 0)
    ensures k < KINDS ==> Use(dm + dp + ds + HonorKoutsu(st.z, 0), k) <= Cell(st, k)
    ensures k >= KINDS ==> Use(dm + dp + ds + HonorKoutsu(st.z, 0), k) == 0
  {
    var dz := HonorKoutsu(st.z, 0);
    UseOfParts(dm, dp, ds, dz, k);
    SuitUse(0, st.m, dm, k);
    SuitUse(1, st.p, dp, k);
    SuitUse(2, st.s, ds, k);
    HonorKinds(st.z, 0, k);
    if k < 9 {
      assert Use(dp, k) == 0 && Use(ds, k) == 0 && Use(dz, k) == 0;
    } else if k < 18 {
      assert Use(dm, k) == 0 && Use(ds, k) == 0 && Use(dz, k) == 0;
    } else if k < 27 {
      assert Use(dm, k) == 0 && Use(dp, k) == 0 && Use(dz, k) == 0;
    } else if k < KINDS {
      assert Use(dm, k) == 0 && Use(dp, k) == 0 && Use(ds, k) == 0;
      assert st.z[k - 27] >= 0;
    }
  }

  /** A decomposition listed by `PairsFrom` starts with the pair of one of
      the candidates that has two tiles, followed by a decomposition of the rest. */
  lemma {:induction false} PairsFromSplit(st: PaiState, ks: seq<nat>, d: seq<Mentsu>) returns (i: nat, rest: seq<Mentsu>)
    requires WellShaped(st)
    requires forall j :: 0 <= j < |ks| ==> ks[j] < KINDS
    requires d in PairsFrom(st, ks)
    ensures i < |ks| && Cell(st, ks[i]) >= 2
    ensures rest in AllOfMentsuWithoutAtama(RemovePair(st, ks[i]))
    ensures d == [AtamaOf(ks[i])] + rest
  {
    var here := WithPair(st, ks[0]);
    if d in here {
      var j :| 0 <= j < |here| && here[j] == d;
      i, rest := 0, AllOfMentsuWithoutAtama(RemovePair(st, ks[0]))[j];
    } else {
      var i', r' := PairsFromSplit(st, ks[1..], d);
      i, rest := i' + 1, r';
    }
  }

  /** Every decomposition `all_of_mentsu` lists is long enough with the
      declared melds, starts with a pair the hand holds, and continues with
      runs and triplets the rest of the hand holds. */
  lemma AllOfMentsuSound(st: PaiState, nFulo: nat, d: seq<Mentsu>)
    requires NonNegativeState(st) && d in AllOfMentsu(st, nFulo)
    ensures |d| + nFulo >= 5
    ensures |d| > 0 && Head(d[0]) < KINDS && d[0] == AtamaOf(Head(d[0])) && Cell(st, Head(d[0])) >= 2
    ensures GroupMelds(d[1..]) && Within(RemovePair(st, Head(d[0])), d[1..])
  {
    var order := AllOfMentsuPairOrder();
    var i, rest := PairsFromSplit(st, order, d);
    assert d[1..] == rest;
    WithoutAtamaSound(RemovePair(st, order[i]), rest);
  }

  /** `all_of_mentsu` tries every kind as the pair. */
  lemma AllOfMentsuPairOrderCovers(k: nat) returns (i: nat)
    requires k < KINDS
    ensures i < |AllOfMentsuPairOrder()| && AllOfMentsuPairOrder()[i] == k
  {
    var order := AllOfMentsuPairOrder();
    var suit, rank := k / 9, k % 9;
    assert k == suit * 9 + rank;
    if k < 27 && rank < 7 {
      i := rank * 4 + suit;
      assert i / 4 == rank && i % 4 == suit;
      assert order[i] == (i % 4) * 9 + i / 4;
    } else if k >= 27 {
      i := (k - 27) * 4 + 3;
      assert i / 4 == k - 27 && i % 4 == 3;
      assert order[i] == (i % 4) * 9 + i / 4;
    } else {
      i := 28 + suit + (if rank == 8 then 3 else 0);
    }
  }

  /** A pair choice listed by `WithPair` appears in `PairsFrom`. */
  lemma {:induction false} PairsFromMember(st: PaiState, ks: seq<nat>, i: nat, d: seq<Mentsu>)
    requires WellShaped(st)
    requires forall j :: 0 <= j < |ks| ==> ks[j] < KINDS
    requires i < |ks| && d in WithPair(st, ks[i])
    ensures d in PairsFrom(st, ks)
  {
    if i > 0 {
      PairsFromMember(st, ks[1..], i - 1, d);
    }
  }

  /** With exactly three tiles of each flagged honour and none of the
      others, the honour triplets are one per flag. */
  lemma {:induction false} HonorKoutsuCount(z: seq<int>, honors: seq<bool>, n: nat)
    requires |z| == |honors| && n <= |z|
    requires forall r :: 0 <= r < |z| ==> z[r] == if honors[r] then 3 else 0
    ensures |HonorKoutsu(z, n)| == CountTrue(honors[n..])
    decreases |z| - n
  {
    if n < |z| {
      HonorKoutsuCount(z, honors, n + 1);
      assert honors[n..][1..] == honors[n + 1..];
    }
  }

  /** A standard hand whose tiles, besides the pair, are exactly its groups:
      every numbered suit is exactly covered and each honour holds three
      tiles when flagged and none otherwise. */
  predicate ExactHand(st: PaiState, hand: StandardHand) {
    && HoldsHand(st, hand)
    && var rest := RemovePair(st, hand.pair);
       ExactCover(rest.m, hand.man) && ExactCover(rest.p, hand.pin) && ExactCover(rest.s, hand.sou)
       && AtMostFour(rest.m) && AtMostFour(rest.p) && AtMostFour(rest.s)
       && (forall r :: 0 <= r < 7 ==> rest.z[r] == if hand.honors[r] then 3 else 0)
  }

  /** Every standard hand is found: `all_of_mentsu` lists a decomposition
      with its pair first and as many groups as the hand has. */
  lemma AllOfMentsuComplete(st: PaiState, hand: StandardHand, nFulo: nat) returns (d: seq<Mentsu>)
    requires ExactHand(st, hand)
    requires 1 + GroupCount(hand) + nFulo >= 5
    ensures d in AllOfMentsu(st, nFulo)
    ensures |d| == 1 + GroupCount(hand) && d[0] == AtamaOf(hand.pair)
  {
    var rest := RemovePair(st, hand.pair);
    var dm := AllOfSuitMentsuComplete(0, rest.m, 0, hand.man);
    var dp := AllOfSuitMentsuComplete(1, rest.p, 0, hand.pin);
    var ds := AllOfSuitMentsuComplete(2, rest.s, 0, hand.sou);
    assert |GroupsOf(0, dm)| == |hand.man| by { assert |multiset(GroupsOf(0, dm))| == |multiset(hand.man)|; }
    assert |GroupsOf(1, dp)| == |hand.pin| by { assert |multiset(GroupsOf(1, dp))| == |multiset(hand.pin)|; }
    assert |GroupsOf(2, ds)| == |hand.sou| by { assert |multiset(GroupsOf(2, ds))| == |multiset(hand.sou)|; }
    var man := AllOfSuitMentsu(0, rest.m, 0);
    var pin := AllOfSuitMentsu(1, rest.p, 0);
    var sou := AllOfSuitMentsu(2, rest.s, 0);
    CrossMember(man, pin, dm, dp);
    CrossMember(Cross(man, pin), sou, dm + dp, ds);
    var all := Cross(Cross(man, pin), sou);
    var j :| 0 <= j < |all| && all[j] == dm + dp + ds;
    var tail := dm + dp + ds + HonorKoutsu(rest.z, 0);
    assert AllOfMentsuWithoutAtama(rest)[j] == tail;
    HonorKoutsuCount(rest.z, hand.honors, 0);
    assert hand.honors[0..] == hand.honors;
    d := [AtamaOf(hand.pair)] + tail;
    assert WithPair(st, hand.pair)[j] == d;
    var i := AllOfMentsuPairOrderCovers(hand.pair);
    PairsFromMember(st, AllOfMentsuPairOrder(), i, d);
  }
}
