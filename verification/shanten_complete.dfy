/** A hand that holds a pair and four groups has shanten -1: the search of
    `mentsu_count` finds every group a suit can supply. */
module ShantenComplete {
  import opened Tiles
  import opened Shanten

  /** A group within one numbered suit: a run starting at rank `start`, or a
      triplet of rank `rank`. */
  datatype SuitGroup = Run(start: nat) | Set(rank: nat)

  predicate ValidGroup(g: SuitGroup) {
    match g
    case Run(s) => s < 7
    case Set(k) => k < 9
  }

  function First(g: SuitGroup): nat {
    match g
    case Run(s) => s
    case Set(k) => k
  }

  /** Tiles of rank `r` the group uses. */
  function Uses(g: SuitGroup, r: nat): nat {
    match g
    case Run(s) => if s <= r <= s + 2 then 1 else 0
    case Set(k) => if k == r then 3 else 0
  }

  function UsesAll(gs: seq<SuitGroup>, r: nat): nat {
    if |gs| == 0 then 0 else Uses(gs[0], r) + UsesAll(gs[1..], r)
  }

  /** The counts `h` hold every tile of the groups `gs`. */
  predicate SuitCovers(h: seq<int>, gs: seq<SuitGroup>)
    requires |h| == 9
  {
    forall r :: 0 <= r < 9 ==> h[r] >= UsesAll(gs, r)
  }

  lemma {:induction false} UsesAllRemove(gs: seq<SuitGroup>, i: nat, r: nat)
    requires i < |gs|
    ensures UsesAll(gs, r) == Uses(gs[i], r) + UsesAll(gs[..i] + gs[i + 1..], r)
  {
    if i > 0 {
      assert (gs[..i] + gs[i + 1..])[1..] == gs[1..][..i - 1] + gs[1..][i..];
      UsesAllRemove(gs[1..], i - 1, r);
    } else {
      assert gs[..i] + gs[i + 1..] == gs[1..];
    }
  }

  /** The groups without the one at index `i` are covered by the counts
      without that group's tiles. */
  lemma RemoveCovered(h: seq<int>, h': seq<int>, gs: seq<SuitGroup>, i: nat)
    requires |h| == 9 && |h'| == 9 && i < |gs| && SuitCovers(h, gs)
    requires forall r :: 0 <= r < 9 ==> h'[r] == h[r] - Uses(gs[i], r)
    ensures SuitCovers(h', gs[..i] + gs[i + 1..])
  {
    forall r | 0 <= r < 9
      ensures h'[r] >= UsesAll(gs[..i] + gs[i + 1..], r)
    {
      UsesAllRemove(gs, i, r);
    }
  }

  /** The most-groups extreme is at least as good, in groups, as each branch. */
  lemma MostMentsuDominatesBranches(h: seq<int>, n: nat)
    requires |h| == 9 && n < 9
    ensures MentsuCount(h, n).mostMentsu.mentsu >= MentsuCount(h, n + 1).mostMentsu.mentsu
    ensures RunAt(h, n) ==> MentsuCount(h, n).mostMentsu.mentsu >= MentsuCount(TakeRun(h, n), n).mostMentsu.mentsu + 1
    ensures TripletAt(h, n) ==> MentsuCount(h, n).mostMentsu.mentsu >= MentsuCount(TakeTriplet(h, n), n).mostMentsu.mentsu + 1
  {
    var skip := MentsuCount(h, n + 1);
    var afterRun :=
      if RunAt(h, n) then Better(skip, Bump(MentsuCount(TakeRun(h, n), n))) else skip;
    assert MentsuCount(h, n) ==
      if TripletAt(h, n) then Better(afterRun, Bump(MentsuCount(TakeTriplet(h, n), n))) else afterRun;
  }

  /** Every group of `gs` is well formed and starts at rank `n` or later. */
  predicate GroupsFrom(gs: seq<SuitGroup>, n: nat) {
    forall i :: 0 <= i < |gs| ==> ValidGroup(gs[i]) && First(gs[i]) >= n
  }

  lemma GroupsFromRemove(gs: seq<SuitGroup>, i: nat, n: nat)
    requires GroupsFrom(gs, n) && i < |gs|
    ensures GroupsFrom(gs[..i] + gs[i + 1..], n)
  {
    var rest := gs[..i] + gs[i + 1..];
    forall j | 0 <= j < |rest|
      ensures ValidGroup(rest[j]) && First(rest[j]) >= n
    {
      if j < i { assert rest[j] == gs[j]; } else { assert rest[j] == gs[j + 1]; }
    }
  }

  lemma FirstGroup(gs: seq<SuitGroup>, n: nat)
    requires GroupsFrom(gs, n) && |gs| > 0
    ensures ValidGroup(gs[0]) && First(gs[0]) >= n
  {
  }

  /** The most-groups extreme of `mentsu_count(h, n)` counts at least as many
      groups as any covered list of groups starting at rank `n` or later. */
  lemma {:induction false} MentsuCountFindsGroups(h: seq<int>, n: nat, gs: seq<SuitGroup>)
    requires |h| == 9 && SuitCovers(h, gs) && GroupsFrom(gs, n)
    ensures MentsuCount(h, n).mostMentsu.mentsu >= |gs|
    decreases PosSum(h), 9 - n
  {
    if n >= 9 {
      if |gs| > 0 {
        FirstGroup(gs, n);
        assert false;
      }
    } else {
      MostMentsuDominatesBranches(h, n);
      if i :| 0 <= i < |gs| && gs[i] == Run(n) {
        RunCase(h, n, gs, i);
        GroupsFromRemove(gs, i, n);
        MentsuCountFindsGroups(TakeRun(h, n), n, gs[..i] + gs[i + 1..]);
      } else if i :| 0 <= i < |gs| && gs[i] == Set(n) {
        TripletCase(h, n, gs, i);
        GroupsFromRemove(gs, i, n);
        MentsuCountFindsGroups(TakeTriplet(h, n), n, gs[..i] + gs[i + 1..]);
      } else {
        forall i | 0 <= i < |gs|
          ensures ValidGroup(gs[i]) && First(gs[i]) >= n + 1
        {
          assert gs[i] != Run(n) && gs[i] != Set(n);
        }
        MentsuCountFindsGroups(h, n + 1, gs);
      }
    }
  }

  /** A covered run at rank `n` can be taken out, leaving the other groups covered. */
  lemma RunCase(h: seq<int>, n: nat, gs: seq<SuitGroup>, i: nat)
    requires |h| == 9 && n < 9 && SuitCovers(h, gs) && i < |gs| && gs[i] == Run(n)
    requires GroupsFrom(gs, n)
    ensures RunAt(h, n)
    ensures PosSum(TakeRun(h, n)) < PosSum(h)
    ensures SuitCovers(TakeRun(h, n), gs[..i] + gs[i + 1..])
  {
    assert ValidGroup(gs[i]);
    UsesAllRemove(gs, i, n);
    UsesAllRemove(gs, i, n + 1);
    UsesAllRemove(gs, i, n + 2);
    assert RunAt(h, n);
    RunShrinks(h, n);
    RemoveCovered(h, TakeRun(h, n), gs, i);
  }

  /** A covered triplet at rank `n` can be taken out, leaving the other groups covered. */
  lemma TripletCase(h: seq<int>, n: nat, gs: seq<SuitGroup>, i: nat)
    requires |h| == 9 && n < 9 && SuitCovers(h, gs) && i < |gs| && gs[i] == Set(n)
    ensures TripletAt(h, n)
    ensures PosSum(TakeTriplet(h, n)) < PosSum(h)
    ensures SuitCovers(TakeTriplet(h, n), gs[..i] + gs[i + 1..])
  {
    UsesAllRemove(gs, i, n);
    assert TripletAt(h, n);
    TripletShrinks(h, n);
    RemoveCovered(h, TakeTriplet(h, n), gs, i);
  }

  function CountTrue(b: seq<bool>): nat {
    if |b| == 0 then 0 else (if b[0] then 1 else 0) + CountTrue(b[1..])
  }

  /** Every flagged honour with three or more tiles is one group. */
  lemma {:induction false} HonorTripleFindsSets(z: seq<int>, sets: seq<bool>)
    requires |sets| == |z|
    requires forall r :: 0 <= r < |z| && sets[r] ==> z[r] >= 3
    ensures HonorTriple(z).mentsu >= CountTrue(sets)
  {
    if |z| > 0 {
      HonorTripleFindsSets(z[1..], sets[1..]);
    }
  }

  /** A standard hand shape: a pair of kind `pair`, groups in each numbered
      suit and a flag per honour that forms a triplet. */
  datatype StandardHand = StandardHand(pair: nat, man: seq<SuitGroup>, pin: seq<SuitGroup>,
                                       sou: seq<SuitGroup>, honors: seq<bool>)

  function GroupCount(hand: StandardHand): nat {
    |hand.man| + |hand.pin| + |hand.sou| + CountTrue(hand.honors)
  }

  /** The counts hold the hand's pair and, besides it, all of its groups. */
  predicate HoldsHand(st: PaiState, hand: StandardHand) {
    && NonNegativeState(st)
    && hand.pair < KINDS && Cell(st, hand.pair) >= 2
    && GroupsFrom(hand.man, 0) && GroupsFrom(hand.pin, 0) && GroupsFrom(hand.sou, 0)
    && |hand.honors| == 7
    && var rest := RemovePair(st, hand.pair);
       SuitCovers(rest.m, hand.man) && SuitCovers(rest.p, hand.pin) && SuitCovers(rest.s, hand.sou)
       && (forall r :: 0 <= r < 7 && hand.honors[r] ==> rest.z[r] >= 3)
  }

  /** A hand holding a pair and, with its declared melds, four groups is
      complete: `get_shanten` returns -1. */
  lemma CompleteHandShanten(st: PaiState, hand: StandardHand, nFulo: nat)
    requires HoldsHand(st, hand)
    requires nFulo + GroupCount(hand) >= 4
    ensures GetShanten(st, nFulo) == -1
  {
    var rest := RemovePair(st, hand.pair);
    MentsuCountFindsGroups(rest.m, 0, hand.man);
    MentsuCountFindsGroups(rest.p, 0, hand.pin);
    MentsuCountFindsGroups(rest.s, 0, hand.sou);
    HonorTripleFindsSets(rest.z, hand.honors);
    var m := MentsuCount(rest.m, 0).mostMentsu;
    var p := MentsuCount(rest.p, 0).mostMentsu;
    var s := MentsuCount(rest.s, 0).mostMentsu;
    var z := HonorTriple(rest.z);
    assert Candidates(rest, true, nFulo)[7] == Combine(nFulo, m, p, s, z, true);
    ShantenCaseIsMin(rest, true, nFulo);
    assert Combine(nFulo, m, p, s, z, true) == -1;
  }
}
