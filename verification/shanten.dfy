/** Shanten (distance to a completed hand) over tile count vectors. */
module Shanten {
  import opened Tiles

  /** (completed groups, partial groups, isolated tiles) = (mentsu, tahtsu, koritsu). */
  datatype Triple = Triple(mentsu: int, tahtsu: int, koritsu: int)

  /** The two extremal triples `mentsu_count` tracks for one suit. */
  datatype Extremes = Extremes(fewestKoritsu: Triple, mostMentsu: Triple)

  /** Count vectors per suit: `hai_count_m/p/s` (9 ranks) and `hai_count_z` (7 honours). */
  datatype PaiState = PaiState(m: seq<int>, p: seq<int>, s: seq<int>, z: seq<int>)

  predicate WellShaped(st: PaiState) {
    |st.m| == 9 && |st.p| == 9 && |st.s| == 9 && |st.z| == 7
  }

  predicate NonNegativeState(st: PaiState) {
    WellShaped(st) && NonNegative(st.m) && NonNegative(st.p) && NonNegative(st.s) && NonNegative(st.z)
  }

  /** Count of kind `k` (0..33) in the state. */
  function Cell(st: PaiState, k: nat): int
    requires WellShaped(st) && k < KINDS
  {
    if k < 9 then st.m[k] else if k < 18 then st.p[k - 9] else if k < 27 then st.s[k - 18] else st.z[k - 27]
  }

  /** Tiles held in total. */
  function TileTotal(st: PaiState): int {
    Sum(st.m) + Sum(st.p) + Sum(st.s) + Sum(st.z)
  }

  // ---------------------------------------------------------------------
  // The closed-form shanten formula.
  // ---------------------------------------------------------------------

  /** `shanten(n_mentsu, n_tahtsu, n_koritsu, b_atama)`: excess groups become
      partial groups, excess partial groups become isolated tiles, isolated
      tiles are capped at 4 (with a pair) or 5, and the pair counts as a
      partial group. */
  function ShantenNumber(nMentsu: int, nTahtsu: int, nKoritsu: int, bAtama: bool): (r: int)
    ensures nMentsu >= 0 && nTahtsu >= 0 && nKoritsu >= 0 ==> -1 <= r <= 13
    ensures nMentsu >= 0 && nTahtsu >= 0 && nKoritsu >= 0 ==> (r == -1 <==> bAtama && nMentsu >= 4)
    ensures nMentsu >= 0 && nTahtsu >= 0 && nKoritsu >= 0 && !bAtama ==> r >= 0
  {
    var n := if bAtama then 4 else 5;
    var (m1, t1) := if nMentsu > 4 then (4, nTahtsu + nMentsu - 4) else (nMentsu, nTahtsu);
    var (t2, k2) := if m1 + t1 > 4 then (4 - m1, nKoritsu + m1 + t1 - 4) else (t1, nKoritsu);
    var k3 := if m1 + t2 + k2 > n then n - m1 - t2 else k2;
    var t3 := if bAtama then t2 + 1 else t2;
    13 - m1 * 3 - t3 * 2 - k3
  }

  /** More completed groups never increase the shanten number. */
  lemma ShantenNumberMonotone(m: int, t: int, k: int, b: bool)
    requires m >= 0 && t >= 0 && k >= 0
    ensures ShantenNumber(m + 1, t, k, b) <= ShantenNumber(m, t, k, b)
  {
  }

  // ---------------------------------------------------------------------
  // Per-suit search.
  // ---------------------------------------------------------------------

  /** Rust's `%` truncates toward zero; for a divisor of 2 this is the sign of `x` times its parity. */
  function Rem2(x: int): (r: int)
    ensures x >= 0 ==> r == x % 2
  {
    if x >= 0 then x % 2 else -((-x) % 2)
  }

  /** The loop of `tahtsu_koritsu_count` from rank `n`, holding `nPai` tiles
      of the current block: a block closes when the next two ranks are empty
      and splits into `nPai >> 1` partial groups and `nPai % 2` isolated tiles. */
  function TahtsuKoritsuLoop(h: seq<int>, n: nat, nPai: int, nDazi: int, nGuli: int): (r: (int, int))
    requires |h| == 9 && n <= 9
    ensures NonNegative(h) && nPai >= 0 && nDazi >= 0 && nGuli >= 0 ==>
      r.0 >= 0 && r.1 >= 0 && 2 * r.0 + r.1 == 2 * nDazi + nGuli + nPai + Sum(h[n..])
    decreases 9 - n
  {
    if n == 9 then (nDazi + nPai / 2, nGuli + Rem2(nPai))
    else
      var pai := nPai + h[n];
      assert h[n..] == [h[n]] + h[n + 1..];
      if n < 7 && h[n + 1] == 0 && h[n + 2] == 0 then
        TahtsuKoritsuLoop(h, n + 1, 0, nDazi + pai / 2, nGuli + Rem2(pai))
      else
        TahtsuKoritsuLoop(h, n + 1, pai, nDazi, nGuli)
  }

  /** `tahtsu_koritsu_count`: no completed groups; both extremes are the same triple. */
  function TahtsuKoritsuCount(h: seq<int>): (r: Extremes)
    requires |h| == 9
    ensures r.fewestKoritsu == r.mostMentsu && r.fewestKoritsu.mentsu == 0
    ensures NonNegative(h) ==> TripleNonNegative(r.fewestKoritsu)
    ensures NonNegative(h) ==> Accounts(r.fewestKoritsu, Sum(h))
  {
    var (d, g) := TahtsuKoritsuLoop(h, 0, 0, 0, 0);
    assert h[0..] == h;
    Extremes(Triple(0, d, g), Triple(0, d, g))
  }

  predicate TripleNonNegative(t: Triple) {
    t.mentsu >= 0 && t.tahtsu >= 0 && t.koritsu >= 0
  }

  /** Tile accounting: 3 per group, 2 per partial group, 1 per isolated tile. */
  predicate Accounts(t: Triple, tiles: int) {
    3 * t.mentsu + 2 * t.tahtsu + t.koritsu == tiles
  }

  /** Sum of the positive cells; it bounds the search depth. */
  function PosSum(s: seq<int>): nat {
    if |s| == 0 then 0 else (if s[0] > 0 then s[0] else 0) + PosSum(s[1..])
  }

  lemma {:induction false} PosSumUpdate(s: seq<int>, i: nat, v: int)
    requires i < |s|
    ensures PosSum(s[i := v]) == PosSum(s) - (if s[i] > 0 then s[i] else 0) + (if v > 0 then v else 0)
  {
    if i == 0 {
      assert s[i := v][1..] == s[1..];
    } else {
      assert s[i := v][1..] == s[1..][i - 1 := v];
      PosSumUpdate(s[1..], i - 1, v);
    }
  }

  /** `h` with one run taken out at ranks n, n+1, n+2. */
  function TakeRun(h: seq<int>, n: nat): (r: seq<int>)
    requires n + 2 < |h|
    ensures |r| == |h|
  {
    h[n := h[n] - 1][n + 1 := h[n + 1] - 1][n + 2 := h[n + 2] - 1]
  }

  /** `h` with a triplet taken out at rank n. */
  function TakeTriplet(h: seq<int>, n: nat): (r: seq<int>)
    requires n < |h|
    ensures |r| == |h|
  {
    h[n := h[n] - 3]
  }

  lemma RunShrinks(h: seq<int>, n: nat)
    requires n + 2 < |h| && h[n] > 0 && h[n + 1] > 0 && h[n + 2] > 0
    ensures PosSum(TakeRun(h, n)) == PosSum(h) - 3
    ensures Sum(TakeRun(h, n)) == Sum(h) - 3
    ensures NonNegative(h) ==> NonNegative(TakeRun(h, n))
  {
    var h1 := h[n := h[n] - 1];
    var h2 := h1[n + 1 := h[n + 1] - 1];
    PosSumUpdate(h, n, h[n] - 1);
    PosSumUpdate(h1, n + 1, h[n + 1] - 1);
    PosSumUpdate(h2, n + 2, h[n + 2] - 1);
    SumUpdate(h, n, h[n] - 1);
    SumUpdate(h1, n + 1, h[n + 1] - 1);
    SumUpdate(h2, n + 2, h[n + 2] - 1);
  }

  lemma TripletShrinks(h: seq<int>, n: nat)
    requires n < |h| && h[n] >= 3
    ensures PosSum(TakeTriplet(h, n)) == PosSum(h) - 3
    ensures Sum(TakeTriplet(h, n)) == Sum(h) - 3
    ensures NonNegative(h) ==> NonNegative(TakeTriplet(h, n))
  {
    PosSumUpdate(h, n, h[n] - 3);
    SumUpdate(h, n, h[n] - 3);
  }

  predicate RunAt(h: seq<int>, n: nat)
    requires |h| == 9
  {
    n < 7 && h[n] > 0 && h[n + 1] > 0 && h[n + 2] > 0
  }

  predicate TripletAt(h: seq<int>, n: nat)
    requires |h| == 9
  {
    n < 9 && h[n] >= 3
  }

  /** Adds the extracted group to both extremes (`r[0].0 += 1; r[1].0 += 1`). */
  function Bump(e: Extremes): Extremes {
    Extremes(
      Triple(e.fewestKoritsu.mentsu + 1, e.fewestKoritsu.tahtsu, e.fewestKoritsu.koritsu),
      Triple(e.mostMentsu.mentsu + 1, e.mostMentsu.tahtsu, e.mostMentsu.koritsu))
  }

  /** Strictly fewer isolated tiles, ties broken by strictly fewer partial groups. */
  predicate FewerKoritsu(a: Triple, b: Triple) {
    a.koritsu < b.koritsu || (a.koritsu == b.koritsu && a.tahtsu < b.tahtsu)
  }

  /** Strictly more groups, ties broken by strictly more partial groups. */
  predicate MoreMentsu(a: Triple, b: Triple) {
    a.mentsu > b.mentsu || (a.mentsu == b.mentsu && a.tahtsu > b.tahtsu)
  }

  /** The update of `max_count` by a branch result `r`: each extreme is
      replaced independently, and only by a strictly better triple. */
  function Better(cur: Extremes, r: Extremes): Extremes {
    Extremes(
      if FewerKoritsu(r.fewestKoritsu, cur.fewestKoritsu) then r.fewestKoritsu else cur.fewestKoritsu,
      if MoreMentsu(r.mostMentsu, cur.mostMentsu) then r.mostMentsu else cur.mostMentsu)
  }

  /** `mentsu_count(hai_count, n)`: from rank `n`, the best triples over
      "skip this rank", "take a run here" and "take a triplet here". The
      counts are passed by value, so the caller's counts are untouched. */
  function MentsuCount(h: seq<int>, n: nat): (r: Extremes)
    requires |h| == 9
    ensures NonNegative(h) ==> TripleNonNegative(r.fewestKoritsu) && TripleNonNegative(r.mostMentsu)
    ensures NonNegative(h) ==> Accounts(r.fewestKoritsu, Sum(h)) && Accounts(r.mostMentsu, Sum(h))
    decreases PosSum(h), 9 - n
  {
    if n >= 9 then TahtsuKoritsuCount(h)
    else
      var skip := MentsuCount(h, n + 1);
      var afterRun :=
        if RunAt(h, n) then
          RunShrinks(h, n);
          Better(skip, Bump(MentsuCount(TakeRun(h, n), n)))
        else skip;
      if TripletAt(h, n) then
        TripletShrinks(h, n);
        Better(afterRun, Bump(MentsuCount(TakeTriplet(h, n), n)))
      else afterRun
  }

  // ---------------------------------------------------------------------
  // Tile counting: PaiState::init / append.
  // ---------------------------------------------------------------------

  /** The all-zero state. */
  function EmptyState(): (st: PaiState)
    ensures WellShaped(st)
  {
    PaiState(Zeros(9), Zeros(9), Zeros(9), Zeros(7))
  }

  /** Every tile names a kind the count vectors have a cell for (otherwise
      the honour array is indexed out of bounds). */
  predicate AllKinds(tiles: seq<Pai>) {
    forall i :: 0 <= i < |tiles| ==> tiles[i].paiNum < KINDS
  }

  /** Number of tiles of kind `k`. */
  function CountKind(tiles: seq<Pai>, k: nat): nat {
    if |tiles| == 0 then 0
    else CountKind(tiles[..|tiles| - 1], k) + (if tiles[|tiles| - 1].paiNum == k then 1 else 0)
  }

  /** `PaiState::append`: one more tile of its kind. */
  function Append(st: PaiState, hai: Pai): (r: PaiState)
    requires WellShaped(st) && hai.paiNum < KINDS
    ensures WellShaped(r)
    ensures Cell(r, hai.paiNum) == Cell(st, hai.paiNum) + 1
    ensures forall k :: 0 <= k < KINDS && k != hai.paiNum ==> Cell(r, k) == Cell(st, k)
    ensures TileTotal(r) == TileTotal(st) + 1
  {
    var num := hai.paiNum;
    if num < 9 then
      SumUpdate(st.m, num, st.m[num] + 1);
      st.(m := st.m[num := st.m[num] + 1])
    else if num < 18 then
      SumUpdate(st.p, num - 9, st.p[num - 9] + 1);
      st.(p := st.p[num - 9 := st.p[num - 9] + 1])
    else if num < 27 then
      SumUpdate(st.s, num - 18, st.s[num - 18] + 1);
      st.(s := st.s[num - 18 := st.s[num - 18] + 1])
    else
      SumUpdate(st.z, num - 27, st.z[num - 27] + 1);
      st.(z := st.z[num - 27 := st.z[num - 27] + 1])
  }

  /** `PaiState::from` / `init`: zero every cell, then append each tile in turn. */
  function FromTiles(tiles: seq<Pai>): (r: PaiState)
    requires AllKinds(tiles)
    ensures NonNegativeState(r)
    ensures forall k :: 0 <= k < KINDS ==> Cell(r, k) == CountKind(tiles, k)
    ensures TileTotal(r) == |tiles|
  {
    if |tiles| == 0 then
      EmptyCounts();
      EmptyState()
    else
      var prev := FromTiles(tiles[..|tiles| - 1]);
      AppendCounts(prev, tiles);
      Append(prev, tiles[|tiles| - 1])
  }

  /** The zeroed state holds nothing. */
  lemma EmptyCounts()
    ensures NonNegativeState(EmptyState()) && TileTotal(EmptyState()) == 0
    ensures forall k :: 0 <= k < KINDS ==> Cell(EmptyState(), k) == 0
  {
    SumZeros(9);
    SumZeros(7);
  }

  /** Appending the last tile to the state of the others gives the state of all. */
  lemma AppendCounts(prev: PaiState, tiles: seq<Pai>)
    requires |tiles| > 0 && tiles[|tiles| - 1].paiNum < KINDS && NonNegativeState(prev)
    requires forall k :: 0 <= k < KINDS ==> Cell(prev, k) == CountKind(tiles[..|tiles| - 1], k)
    requires TileTotal(prev) == |tiles| - 1
    ensures var r := Append(prev, tiles[|tiles| - 1]);
      && NonNegativeState(r)
      && (forall k :: 0 <= k < KINDS ==> Cell(r, k) == CountKind(tiles, k))
      && TileTotal(r) == |tiles|
  {
    var r := Append(prev, tiles[|tiles| - 1]);
    CellsNonNegative(r);
  }

  /** A state whose every cell is non-negative is a non-negative state. */
  lemma CellsNonNegative(st: PaiState)
    requires WellShaped(st) && forall k :: 0 <= k < KINDS ==> Cell(st, k) >= 0
    ensures NonNegativeState(st)
  {
    forall i | 0 <= i < 9 ensures st.m[i] >= 0 && st.p[i] >= 0 && st.s[i] >= 0 {
      assert Cell(st, i) == st.m[i] && Cell(st, i + 9) == st.p[i] && Cell(st, i + 18) == st.s[i];
    }
    forall i | 0 <= i < 7 ensures st.z[i] >= 0 {
      assert Cell(st, i + 27) == st.z[i];
    }
  }

  // ---------------------------------------------------------------------
  // get_shanten_case / get_shanten.
  // ---------------------------------------------------------------------

  /** Honours only form triplets: a count of 3 or more is one group, 2 a
      partial group, 1 an isolated tile. */
  function HonorTriple(z: seq<int>): (r: Triple)
    ensures NonNegative(z) ==> TripleNonNegative(r)
    ensures NonNegative(z) ==> 3 * r.mentsu + 2 * r.tahtsu + r.koritsu <= Sum(z)
  {
    if |z| == 0 then Triple(0, 0, 0)
    else
      var rest := HonorTriple(z[1..]);
      if z[0] >= 3 then Triple(rest.mentsu + 1, rest.tahtsu, rest.koritsu)
      else if z[0] == 2 then Triple(rest.mentsu, rest.tahtsu + 1, rest.koritsu)
      else if z[0] == 1 then Triple(rest.mentsu, rest.tahtsu, rest.koritsu + 1)
      else rest
  }

  /** Number of cells of `z` holding at least `n` tiles. */
  function CellsAtLeast(z: seq<int>, n: int): nat {
    if |z| == 0 then 0 else (if z[0] >= n then 1 else 0) + CellsAtLeast(z[1..], n)
  }

  /** Number of cells of `z` holding exactly `n` tiles. */
  function CellsExactly(z: seq<int>, n: int): nat {
    if |z| == 0 then 0 else (if z[0] == n then 1 else 0) + CellsExactly(z[1..], n)
  }

  /** The honour triple counts the kinds: groups are the kinds held three
      or more times, partial groups the pairs, isolated tiles the singles. */
  lemma {:induction false} HonorTripleCounts(z: seq<int>)
    ensures HonorTriple(z).mentsu == CellsAtLeast(z, 3)
    ensures HonorTriple(z).tahtsu == CellsExactly(z, 2)
    ensures HonorTriple(z).koritsu == CellsExactly(z, 1)
  {
    if |z| > 0 {
      HonorTripleCounts(z[1..]);
    }
  }

  /** The two triples of a suit in iteration order `[0], [1]`. */
  function Choices(e: Extremes): seq<Triple> {
    [e.fewestKoritsu, e.mostMentsu]
  }

  /** Shanten of one (man, pin, sou) choice plus honours and declared melds. */
  function Combine(nFulo: nat, a: Triple, b: Triple, c: Triple, z: Triple, bAtama: bool): int {
    ShantenNumber(nFulo + a.mentsu + b.mentsu + c.mentsu + z.mentsu,
                  a.tahtsu + b.tahtsu + c.tahtsu + z.tahtsu,
                  a.koritsu + b.koritsu + c.koritsu + z.koritsu, bAtama)
  }

  function Min(a: int, b: int): int {
    if a <= b then a else b
  }

  /** The eight shanten values of `get_shanten_case`, in `iproduct!` order
      (man varies slowest, sou fastest). */
  function Candidates(st: PaiState, bAtama: bool, nFulo: nat): (c: seq<int>)
    requires WellShaped(st)
    ensures |c| == 8
  {
    var m := MentsuCount(st.m, 0);
    var p := MentsuCount(st.p, 0);
    var s := MentsuCount(st.s, 0);
    var z := HonorTriple(st.z);
    var (m0, m1) := (m.fewestKoritsu, m.mostMentsu);
    var (p0, p1) := (p.fewestKoritsu, p.mostMentsu);
    var (s0, s1) := (s.fewestKoritsu, s.mostMentsu);
    [Combine(nFulo, m0, p0, s0, z, bAtama), Combine(nFulo, m0, p0, s1, z, bAtama),
     Combine(nFulo, m0, p1, s0, z, bAtama), Combine(nFulo, m0, p1, s1, z, bAtama),
     Combine(nFulo, m1, p0, s0, z, bAtama), Combine(nFulo, m1, p0, s1, z, bAtama),
     Combine(nFulo, m1, p1, s0, z, bAtama), Combine(nFulo, m1, p1, s1, z, bAtama)]
  }

  /** With non-negative counts every candidate is at least -1, and at least 0 without a pair. */
  lemma CandidatesBounded(st: PaiState, bAtama: bool, nFulo: nat)
    requires NonNegativeState(st)
    ensures forall i :: 0 <= i < 8 ==> Candidates(st, bAtama, nFulo)[i] >= (if bAtama then -1 else 0)
  {
    var m := MentsuCount(st.m, 0);
    var p := MentsuCount(st.p, 0);
    var s := MentsuCount(st.s, 0);
    var z := HonorTriple(st.z);
    var c := Candidates(st, bAtama, nFulo);
    forall a, b, d | a in {m.fewestKoritsu, m.mostMentsu} && b in {p.fewestKoritsu, p.mostMentsu} && d in {s.fewestKoritsu, s.mostMentsu}
      ensures Combine(nFulo, a, b, d, z, bAtama) >= (if bAtama then -1 else 0)
    {
      CombineBounded(nFulo, a, b, d, z, bAtama);
    }
  }

  lemma CombineBounded(nFulo: nat, a: Triple, b: Triple, c: Triple, z: Triple, bAtama: bool)
    requires TripleNonNegative(a) && TripleNonNegative(b) && TripleNonNegative(c) && TripleNonNegative(z)
    ensures Combine(nFulo, a, b, c, z, bAtama) >= (if bAtama then -1 else 0)
  {
  }

  /** `get_shanten_case`: the minimum, starting from 13, over the candidates. */
  function ShantenCase(st: PaiState, bAtama: bool, nFulo: nat): (r: int)
    requires WellShaped(st)
    ensures r <= 13
    ensures NonNegativeState(st) ==> r >= -1
    ensures NonNegativeState(st) && !bAtama ==> r >= 0
  {
    var c := Candidates(st, bAtama, nFulo);
    if NonNegativeState(st) then
      CandidatesBounded(st, bAtama, nFulo);
      MinFrom(13, c)
    else
      MinFrom(13, c)
  }

  /** `get_shanten_case` is the least of 13 and its eight candidates. */
  lemma ShantenCaseIsMin(st: PaiState, bAtama: bool, nFulo: nat)
    requires WellShaped(st)
    ensures forall i :: 0 <= i < 8 ==> ShantenCase(st, bAtama, nFulo) <= Candidates(st, bAtama, nFulo)[i]
    ensures ShantenCase(st, bAtama, nFulo) == 13 ||
      exists i :: 0 <= i < 8 && ShantenCase(st, bAtama, nFulo) == Candidates(st, bAtama, nFulo)[i]
  {
  }

  /** `acc.min(c[0]).min(c[1])...` */
  function MinFrom(acc: int, c: seq<int>): (r: int)
    ensures r <= acc
    ensures forall i :: 0 <= i < |c| ==> r <= c[i]
    ensures r == acc || exists i :: 0 <= i < |c| && r == c[i]
    ensures (forall i :: 0 <= i < |c| ==> c[i] >= acc) ==> r == acc
    decreases |c|
  {
    if |c| == 0 then acc
    else
      var r := MinFrom(Min(acc, c[0]), c[1..]);
      assert forall i :: 1 <= i < |c| ==> c[i] == c[1..][i - 1];
      r
  }

  /** The pair candidates in the order `get_shanten` tries them: rank by
      rank m, p, s for ranks 0..8, then the seven honours. */
  function ShantenPairOrder(): (r: seq<nat>)
    ensures |r| == KINDS
    ensures forall i :: 0 <= i < |r| ==> r[i] < KINDS
  {
    seq(27, i requires 0 <= i < 27 => (i % 3) * 9 + i / 3) + seq(7, i requires 0 <= i < 7 => 27 + i)
  }

  /** The state with two tiles of kind `k` taken out as the pair. */
  function RemovePair(st: PaiState, k: nat): (r: PaiState)
    requires WellShaped(st) && k < KINDS
    ensures WellShaped(r)
    ensures Cell(r, k) == Cell(st, k) - 2
    ensures forall j :: 0 <= j < KINDS && j != k ==> Cell(r, j) == Cell(st, j)
    ensures NonNegativeState(st) && Cell(st, k) >= 2 ==> NonNegativeState(r)
  {
    if k < 9 then st.(m := st.m[k := st.m[k] - 2])
    else if k < 18 then st.(p := st.p[k - 9 := st.p[k - 9] - 2])
    else if k < 27 then st.(s := st.s[k - 18 := st.s[k - 18] - 2])
    else st.(z := st.z[k - 27 := st.z[k - 27] - 2])
  }

  /** The loop of `get_shanten` over the pair candidates `ks`. */
  function PairLoop(st: PaiState, nFulo: nat, ks: seq<nat>, acc: int): (r: int)
    requires WellShaped(st)
    requires forall i :: 0 <= i < |ks| ==> ks[i] < KINDS
    ensures r <= acc
  {
    if |ks| == 0 then acc
    else
      var k := ks[0];
      var acc' := if Cell(st, k) >= 2 then
        Min(acc, ShantenCase(RemovePair(st, k), true, nFulo))
      else acc;
      PairLoop(st, nFulo, ks[1..], acc')
  }

  /** The loop's result is no worse than any pair candidate. */
  lemma {:induction false} PairLoopLower(st: PaiState, nFulo: nat, ks: seq<nat>, acc: int)
    requires WellShaped(st)
    requires forall i :: 0 <= i < |ks| ==> ks[i] < KINDS
    ensures forall i :: 0 <= i < |ks| && Cell(st, ks[i]) >= 2 ==>
      PairLoop(st, nFulo, ks, acc) <= ShantenCase(RemovePair(st, ks[i]), true, nFulo)
    decreases |ks|
  {
    if |ks| > 0 {
      var k := ks[0];
      var acc' := if Cell(st, k) >= 2 then
        Min(acc, ShantenCase(RemovePair(st, k), true, nFulo))
      else acc;
      var tail := ks[1..];
      var r := PairLoop(st, nFulo, tail, acc');
      assert PairLoop(st, nFulo, ks, acc) == r;
      PairLoopLower(st, nFulo, tail, acc');
      forall i | 0 <= i < |ks| && Cell(st, ks[i]) >= 2
        ensures r <= ShantenCase(RemovePair(st, ks[i]), true, nFulo)
      {
        if i > 0 {
          assert ks[i] == tail[i - 1];
        }
      }
    }
  }

  /** The loop improves on its starting value only by the value of one of
      the pair candidates. */
  lemma {:induction false} PairLoopWitness(st: PaiState, nFulo: nat, ks: seq<nat>, acc: int)
    requires WellShaped(st)
    requires forall i :: 0 <= i < |ks| ==> ks[i] < KINDS
    ensures var r := PairLoop(st, nFulo, ks, acc);
      r < acc ==> exists i :: 0 <= i < |ks| && Cell(st, ks[i]) >= 2 && r == ShantenCase(RemovePair(st, ks[i]), true, nFulo)
    decreases |ks|
  {
    if |ks| > 0 {
      var k := ks[0];
      var acc' := if Cell(st, k) >= 2 then
        Min(acc, ShantenCase(RemovePair(st, k), true, nFulo))
      else acc;
      var tail := ks[1..];
      var r := PairLoop(st, nFulo, tail, acc');
      assert PairLoop(st, nFulo, ks, acc) == r;
      PairLoopWitness(st, nFulo, tail, acc');
      if r < acc {
        if r < acc' {
          var j :| 0 <= j < |tail| && Cell(st, tail[j]) >= 2 && r == ShantenCase(RemovePair(st, tail[j]), true, nFulo);
          assert ks[j + 1] == tail[j];
        } else {
          assert Cell(st, ks[0]) >= 2 && r == ShantenCase(RemovePair(st, ks[0]), true, nFulo);
        }
      }
    }
  }

  /** `get_shanten`: the no-pair case, improved by every possible pair. */
  function GetShanten(st: PaiState, nFulo: nat): (r: int)
    requires WellShaped(st)
    ensures r <= ShantenCase(st, false, nFulo)
    ensures forall k :: 0 <= k < KINDS && Cell(st, k) >= 2 ==> r <= ShantenCase(RemovePair(st, k), true, nFulo)
    ensures NonNegativeState(st) ==> r >= -1
    ensures NonNegativeState(st) && r < 0 ==> exists k :: 0 <= k < KINDS && Cell(st, k) >= 2
  {
    var order := ShantenPairOrder();
    var base := ShantenCase(st, false, nFulo);
    PairOrderCovers();
    PairLoopCovers(st, nFulo, order, base);
    PairLoop(st, nFulo, order, base)
  }

  /** Over candidates that cover every kind, the pair loop is no worse than
      any pair and, on a non-negative state, improves on the no-pair case
      only when some kind can be the pair. */
  lemma PairLoopCovers(st: PaiState, nFulo: nat, order: seq<nat>, base: int)
    requires WellShaped(st)
    requires forall i :: 0 <= i < |order| ==> order[i] < KINDS
    requires forall k :: 0 <= k < KINDS ==> k in order
    requires base == ShantenCase(st, false, nFulo)
    ensures var r := PairLoop(st, nFulo, order, base);
      && (forall k :: 0 <= k < KINDS && Cell(st, k) >= 2 ==> r <= ShantenCase(RemovePair(st, k), true, nFulo))
      && (NonNegativeState(st) ==> r >= -1)
      && (NonNegativeState(st) && r < 0 ==> exists k :: 0 <= k < KINDS && Cell(st, k) >= 2)
  {
    var r := PairLoop(st, nFulo, order, base);
    PairLoopLower(st, nFulo, order, base);
    PairLoopWitness(st, nFulo, order, base);
    forall k | 0 <= k < KINDS && Cell(st, k) >= 2
      ensures r <= ShantenCase(RemovePair(st, k), true, nFulo)
    {
      assert k in order;
      var i :| 0 <= i < |order| && order[i] == k;
    }
    if NonNegativeState(st) && r < base {
      var i :| 0 <= i < |order| && Cell(st, order[i]) >= 2 && r == ShantenCase(RemovePair(st, order[i]), true, nFulo);
      assert NonNegativeState(RemovePair(st, order[i]));
    }
  }

  /** Every kind is among the pair candidates. */
  lemma PairOrderCovers()
    ensures forall k :: 0 <= k < KINDS ==> k in ShantenPairOrder()
  {
    var order := ShantenPairOrder();
    forall k | 0 <= k < KINDS
      ensures k in order
    {
      if k < 27 {
        var i := (k % 9) * 3 + k / 9;
        assert order[i] == k;
      } else {
        assert order[27 + (k - 27)] == k;
      }
    }
  }
}
