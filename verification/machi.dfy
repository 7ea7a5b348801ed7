/** The wait-shape tests `is_tanki`, `is_kanchan`, `is_penchan` and
    `add_machi_to_mentsu`, which marks the winning tile in every meld of a
    decomposition that holds it. */
module Machi {
  import opened Wrappers
  import opened Tiles
  import opened Melds

  // ---------------------------------------------------------------------
  // Wait shapes.
  // ---------------------------------------------------------------------

  /** Index of the first of the four slots flagged as the winning tile. */
  function FirstAgari(m: Mentsu): (r: Option<nat>)
    ensures r.Some? ==> r.value < 4 && m.paiList[r.value].flag == FlagAgari
    ensures r.Some? ==> forall j :: 0 <= j < r.value ==> m.paiList[j].flag != FlagAgari
    ensures r.None? <==> forall j :: 0 <= j < 4 ==> m.paiList[j].flag != FlagAgari
  {
    FirstAgariFrom(m.paiList, 0)
  }

  function FirstAgariFrom(s: seq<MentsuPai>, i: nat): (r: Option<nat>)
    requires i <= |s|
    ensures r.Some? ==> i <= r.value < |s| && s[r.value].flag == FlagAgari
    ensures r.Some? ==> forall j :: i <= j < r.value ==> s[j].flag != FlagAgari
    ensures r.None? <==> forall j :: i <= j < |s| ==> s[j].flag != FlagAgari
    decreases |s| - i
  {
    if i == |s| then None
    else if s[i].flag == FlagAgari then Some(i)
    else FirstAgariFrom(s, i + 1)
  }

  /** `is_tanki`: some slot (of all four) carries the winning flag. */
  predicate IsTanki(m: Mentsu) {
    exists j :: 0 <= j < 4 && m.paiList[j].flag == FlagAgari
  }

  /** `is_kanchan`: the first winning flag is on the middle slot. */
  predicate IsKanchan(m: Mentsu) {
    FirstAgari(m) == Some(1)
  }

  /** `is_penchan`: the first winning flag is on slot 2 of a tile of rank 3,
      or on slot 0 of a tile of rank 7. */
  predicate IsPenchan(m: Mentsu) {
    match FirstAgari(m)
    case Some(i) => (i == 2 && m.paiList[i].paiNum % 9 == 2) || (i == 0 && m.paiList[i].paiNum % 9 == 6)
    case None => false
  }

  lemma TankiIffFlagged(m: Mentsu)
    ensures IsTanki(m) <==> FirstAgari(m).Some?
  {
    if IsTanki(m) {
      var j :| 0 <= j < 4 && m.paiList[j].flag == FlagAgari;
    }
  }

  /** Slot `j` of `m` flagged as the winning tile. */
  function MarkAgari(m: Mentsu, j: nat): (r: Mentsu)
    requires j < 4
    ensures r.paiLen == m.paiLen && r.mentsuType == m.mentsuType
    ensures r.paiList[j] == m.paiList[j].(flag := FlagAgari)
    ensures forall i :: 0 <= i < 4 && i != j ==> r.paiList[i] == m.paiList[i]
  {
    m.(paiList := m.paiList[j := m.paiList[j].(flag := FlagAgari)])
  }

  /** No slot of any meld carries the winning flag yet. */
  predicate Unflagged(m: Mentsu) {
    forall j :: 0 <= j < 4 ==> m.paiList[j].flag != FlagAgari
  }

  /** The run `k, k+1, k+2` won on slot `j`: kanchan exactly when the
      winning tile is the middle one; penchan exactly when it is the 3 of a
      1-2-3 or the 7 of a 7-8-9. */
  lemma RunWaits(k: nat, j: nat)
    requires j < 3
    ensures IsTanki(MarkAgari(ShuntsuOf(k), j))
    ensures IsKanchan(MarkAgari(ShuntsuOf(k), j)) <==> j == 1
    ensures IsPenchan(MarkAgari(ShuntsuOf(k), j)) <==> (j == 2 && k % 9 == 0) || (j == 0 && k % 9 == 6)
  {
    var m := MarkAgari(ShuntsuOf(k), j);
    assert m.paiList[j].flag == FlagAgari;
    assert FirstAgari(m) == Some(j);
  }

  // ---------------------------------------------------------------------
  // add_machi_to_mentsu.
  // ---------------------------------------------------------------------

  /** Which slots the search for the winning tile looks at: all four (as
      written), or only the `pai_len` slots that hold tiles. */
  datatype Scan = AllSlots | TileSlots

  function Scanned(m: Mentsu, scan: Scan): (r: seq<MentsuPai>)
    ensures |r| <= 4
  {
    match scan
    case AllSlots => m.paiList
    case TileSlots => UsedSlots(m)
  }

  /** Index of the first of the slots `s` holding kind `k`. */
  function FirstMatch(s: seq<MentsuPai>, k: nat, i: nat): (r: Option<nat>)
    requires i <= |s|
    ensures r.Some? ==> i <= r.value < |s| && s[r.value].paiNum == k
    ensures r.Some? ==> forall j :: i <= j < r.value ==> s[j].paiNum != k
    ensures r.None? <==> forall j :: i <= j < |s| ==> s[j].paiNum != k
    decreases |s| - i
  {
    if i == |s| then None
    else if s[i].paiNum == k then Some(i)
    else FirstMatch(s, k, i + 1)
  }

  /** The slot of meld `m` that receives the winning flag, if any. */
  function MachiSlot(m: Mentsu, k: nat, scan: Scan): (r: Option<nat>)
    ensures r.Some? ==> r.value < |Scanned(m, scan)| && r.value < 4
  {
    FirstMatch(Scanned(m, scan), k, 0)
  }

  /** Indices, in order, of the melds of `d` (from index `i` on) that hold the tile. */
  function Holding(d: seq<Mentsu>, k: nat, scan: Scan, i: nat): (r: seq<nat>)
    requires i <= |d|
    ensures forall a :: 0 <= a < |r| ==> i <= r[a] < |d| && MachiSlot(d[r[a]], k, scan).Some?
    ensures forall a, b :: 0 <= a < b < |r| ==> r[a] < r[b]
    ensures forall h :: i <= h < |d| && MachiSlot(d[h], k, scan).Some? ==> h in r
    decreases |d| - i
  {
    if i == |d| then []
    else if MachiSlot(d[i], k, scan).Some? then [i] + Holding(d, k, scan, i + 1)
    else Holding(d, k, scan, i + 1)
  }

  /** `d` with the winning flag set in meld `h`. */
  function Marked(d: seq<Mentsu>, k: nat, scan: Scan, h: nat): (r: seq<Mentsu>)
    requires h < |d| && MachiSlot(d[h], k, scan).Some?
    ensures |r| == |d|
  {
    d[h := MarkAgari(d[h], MachiSlot(d[h], k, scan).value)]
  }

  /** One copy of `d` per meld holding the tile, in meld order. */
  function Copies(d: seq<Mentsu>, k: nat, scan: Scan): (r: seq<seq<Mentsu>>)
    ensures |r| == |Holding(d, k, scan, 0)|
  {
    var hs := Holding(d, k, scan, 0);
    seq(|hs|, a requires 0 <= a < |hs| => Marked(d, k, scan, hs[a]))
  }

  /** The loop of `add_machi_to_mentsu`, for the winning kind `k`. */
  function AddMachi(ds: seq<seq<Mentsu>>, k: nat, scan: Scan): seq<seq<Mentsu>> {
    if |ds| == 0 then [] else Copies(ds[0], k, scan) + AddMachi(ds[1..], k, scan)
  }

  /** `add_machi_to_mentsu` as written: the tile is looked for in all four
      slots, including the blank padding of pairs and runs. */
  function AddMachiToMentsu(ds: seq<seq<Mentsu>>, p: Pai): seq<seq<Mentsu>> {
    AddMachi(ds, p.paiNum, AllSlots)
  }

  /** The corrected search: only the slots that hold tiles. */
  function AddMachiToMentsuCorrected(ds: seq<seq<Mentsu>>, p: Pai): seq<seq<Mentsu>> {
    AddMachi(ds, p.paiNum, TileSlots)
  }

  /** Decompositions are processed in order: the result for a concatenation
      is the concatenation of the results. */
  lemma {:induction false} AddMachiAppend(a: seq<seq<Mentsu>>, b: seq<seq<Mentsu>>, k: nat, scan: Scan)
    ensures AddMachi(a + b, k, scan) == AddMachi(a, k, scan) + AddMachi(b, k, scan)
  {
    if |a| == 0 {
      EmptyAppend(a, b);
    } else {
      var ab := a + b;
      ConsAppend(a, b);
      AddMachiCons(ab, k, scan);
      AddMachiCons(a, k, scan);
      AddMachiAppend(a[1..], b, k, scan);
      ConcatAssoc(Copies(a[0], k, scan), AddMachi(a[1..], k, scan), AddMachi(b, k, scan));
    }
  }

  lemma AddMachiCons(ds: seq<seq<Mentsu>>, k: nat, scan: Scan)
    requires |ds| > 0
    ensures AddMachi(ds, k, scan) == Copies(ds[0], k, scan) + AddMachi(ds[1..], k, scan)
  {
  }

  lemma EmptyAppend<T>(a: seq<T>, b: seq<T>)
    requires |a| == 0
    ensures a + b == b
  {
  }

  lemma ConsAppend<T>(a: seq<T>, b: seq<T>)
    requires |a| > 0
    ensures (a + b)[0] == a[0] && (a + b)[1..] == a[1..] + b
  {
  }

  lemma ConcatAssoc<T>(x: seq<T>, y: seq<T>, z: seq<T>)
    ensures x + (y + z) == (x + y) + z
  {
  }

  lemma {:induction false} HoldingNone(d: seq<Mentsu>, k: nat, scan: Scan, i: nat)
    requires i <= |d|
    requires forall h :: i <= h < |d| ==> MachiSlot(d[h], k, scan).None?
    ensures Holding(d, k, scan, i) == []
    decreases |d| - i
  {
    if i < |d| {
      HoldingNone(d, k, scan, i + 1);
    }
  }

  /** A decomposition none of whose melds holds the tile is dropped. */
  lemma DroppedWithoutTile(d: seq<Mentsu>, k: nat, scan: Scan)
    requires forall h :: 0 <= h < |d| ==> MachiSlot(d[h], k, scan).None?
    ensures AddMachi([d], k, scan) == []
  {
    HoldingNone(d, k, scan, 0);
    var ds: seq<seq<Mentsu>> := [d];
    assert ds[1..] == [];
  }

  /** Every result is one input decomposition with exactly one meld changed:
      the first scanned slot holding the tile gets the winning flag. */
  lemma {:induction false} AddMachiSound(ds: seq<seq<Mentsu>>, k: nat, scan: Scan, r: seq<Mentsu>)
    returns (i: nat, h: nat, j: nat)
    requires r in AddMachi(ds, k, scan)
    ensures i < |ds| && h < |ds[i]| && MachiSlot(ds[i][h], k, scan) == Some(j)
    ensures j < |Scanned(ds[i][h], scan)| && Scanned(ds[i][h], scan)[j].paiNum == k
    ensures r == ds[i][h := MarkAgari(ds[i][h], j)]
  {
    AddMachiCons(ds, k, scan);
    var c := Copies(ds[0], k, scan);
    if r in c {
      var a :| 0 <= a < |c| && c[a] == r;
      var hs := Holding(ds[0], k, scan, 0);
      i, h, j := 0, hs[a], MachiSlot(ds[0][hs[a]], k, scan).value;
    } else {
      var i', h', j' := AddMachiSound(ds[1..], k, scan, r);
      i, h, j := i' + 1, h', j';
    }
  }

  /** Conversely, every meld of every decomposition that holds the tile
      gives one result. */
  lemma {:induction false} AddMachiComplete(ds: seq<seq<Mentsu>>, k: nat, scan: Scan, i: nat, h: nat)
    requires i < |ds| && h < |ds[i]| && MachiSlot(ds[i][h], k, scan).Some?
    ensures Marked(ds[i], k, scan, h) in AddMachi(ds, k, scan)
  {
    if i == 0 {
      var hs := Holding(ds[0], k, scan, 0);
      var a :| 0 <= a < |hs| && hs[a] == h;
      assert Copies(ds[0], k, scan)[a] == Marked(ds[i], k, scan, h);
    } else {
      AddMachiComplete(ds[1..], k, scan, i - 1, h);
    }
  }

  /** With the corrected search the winning flag always lands on a real
      tile (one of the first `pai_len` slots) of the winning kind, and, in a
      decomposition without earlier flags, it is the meld's first flag. */
  lemma CorrectedFlagsRealTile(ds: seq<seq<Mentsu>>, p: Pai, r: seq<Mentsu>) returns (i: nat, h: nat, j: nat)
    requires r in AddMachiToMentsuCorrected(ds, p)
    ensures i < |ds| && h < |ds[i]| && j < 4 && r == ds[i][h := MarkAgari(ds[i][h], j)]
    ensures j < ds[i][h].paiLen && r[h].paiList[j].paiNum == p.paiNum
    ensures Unflagged(ds[i][h]) ==> FirstAgari(r[h]) == Some(j)
  {
    i, h, j := AddMachiSound(ds, p.paiNum, TileSlots, r);
    assert j < |UsedSlots(ds[i][h])|;
    if ds[i][h].paiLen > 4 {
      assert j < 4;
    }
  }

  /** As written, a winning 1m (kind 0) matches the blank padding of every
      pair and run: for the pair of 1p and the run 1-2-3m, the copy that
      flags the pair's padding slot makes that pair a tanki although it does
      not hold the winning tile. The corrected search flags only the run. */
  lemma AsWrittenFlagsPadding()
    ensures var d := [AtamaOf(9), ShuntsuOf(0)];
            && |AddMachiToMentsu([d], Pai(0, 0))| == 2
            && AddMachiToMentsu([d], Pai(0, 0))[0] == [MarkAgari(AtamaOf(9), 2), ShuntsuOf(0)]
            && 2 >= AtamaOf(9).paiLen && AtamaOf(9).paiList[0].paiNum != 0
            && IsTanki(AddMachiToMentsu([d], Pai(0, 0))[0][0])
            && AddMachiToMentsuCorrected([d], Pai(0, 0)) == [[AtamaOf(9), MarkAgari(ShuntsuOf(0), 0)]]
  {
    var d := [AtamaOf(9), ShuntsuOf(0)];
    assert MachiSlot(d[0], 0, AllSlots) == Some(2);
    assert MachiSlot(d[1], 0, AllSlots) == Some(0);
    assert Holding(d, 0, AllSlots, 0) == [0, 1];
    assert MachiSlot(d[0], 0, TileSlots) == None;
    assert MachiSlot(d[1], 0, TileSlots) == Some(0);
    assert Holding(d, 0, TileSlots, 0) == [1];
    assert Copies(d, 0, TileSlots) == [Marked(d, 0, TileSlots, 1)];
    assert Copies(d, 0, AllSlots) == [Marked(d, 0, AllSlots, 0), Marked(d, 0, AllSlots, 1)];
    var ds: seq<seq<Mentsu>> := [d];
    assert ds[1..] == [];
    assert AddMachi(ds, 0, TileSlots) == Copies(d, 0, TileSlots);
    assert Marked(d, 0, TileSlots, 1) == [AtamaOf(9), MarkAgari(ShuntsuOf(0), 0)];
    assert MarkAgari(AtamaOf(9), 2).paiList[2].flag == FlagAgari;
  }

  /** Three tiles and a blank slot, `pai_len` 3. */
  function Meld3(a: nat, b: nat, c: nat, t: MentsuType): (m: Mentsu)
    ensures m.paiLen == 3 && m.mentsuType == t
    ensures MeldKinds(m) == [a, b, c]
  {
    Mentsu([MentsuPai(a, 0, FlagNone), MentsuPai(b, 0, FlagNone), MentsuPai(c, 0, FlagNone), Blank], 3, t)
  }

  /** The second sample of the crate's own add_machi test: a triplet of 3m
      and a run 5-6-7m, then the runs 3-4-5m and 2-3-4m, won on 3m. The
      first decomposition gives one copy, the second two, in meld order. */
  lemma AddMachiSample()
    ensures var ds := [[Meld3(2, 2, 2, Koutsu), Meld3(4, 5, 6, Shuntsu)],
                       [Meld3(2, 3, 4, Shuntsu), Meld3(1, 2, 3, Shuntsu)]];
            AddMachiToMentsu(ds, Pai(2, 0)) ==
              [[MarkAgari(Meld3(2, 2, 2, Koutsu), 0), Meld3(4, 5, 6, Shuntsu)],
               [MarkAgari(Meld3(2, 3, 4, Shuntsu), 0), Meld3(1, 2, 3, Shuntsu)],
               [Meld3(2, 3, 4, Shuntsu), MarkAgari(Meld3(1, 2, 3, Shuntsu), 1)]]
  {
    var d0 := [Meld3(2, 2, 2, Koutsu), Meld3(4, 5, 6, Shuntsu)];
    var d1 := [Meld3(2, 3, 4, Shuntsu), Meld3(1, 2, 3, Shuntsu)];
    SampleCopiesFirst();
    SampleCopiesSecond();
    AddMachiOne(d0, 2, AllSlots);
    AddMachiOne(d1, 2, AllSlots);
    AddMachiAppend([d0], [d1], 2, AllSlots);
    assert [d0] + [d1] == [d0, d1];
  }

  lemma AddMachiOne(d: seq<Mentsu>, k: nat, scan: Scan)
    ensures AddMachi([d], k, scan) == Copies(d, k, scan)
  {
    var ds: seq<seq<Mentsu>> := [d];
    assert ds[1..] == [];
  }

  lemma SampleCopiesFirst()
    ensures Copies([Meld3(2, 2, 2, Koutsu), Meld3(4, 5, 6, Shuntsu)], 2, AllSlots)
         == [[MarkAgari(Meld3(2, 2, 2, Koutsu), 0), Meld3(4, 5, 6, Shuntsu)]]
  {
    var d0 := [Meld3(2, 2, 2, Koutsu), Meld3(4, 5, 6, Shuntsu)];
    assert MachiSlot(d0[0], 2, AllSlots) == Some(0);
    assert MachiSlot(d0[1], 2, AllSlots) == None;
    assert Holding(d0, 2, AllSlots, 0) == [0];
    assert Marked(d0, 2, AllSlots, 0) == [MarkAgari(Meld3(2, 2, 2, Koutsu), 0), Meld3(4, 5, 6, Shuntsu)];
  }

  lemma SampleCopiesSecond()
    ensures Copies([Meld3(2, 3, 4, Shuntsu), Meld3(1, 2, 3, Shuntsu)], 2, AllSlots)
         == [[MarkAgari(Meld3(2, 3, 4, Shuntsu), 0), Meld3(1, 2, 3, Shuntsu)],
             [Meld3(2, 3, 4, Shuntsu), MarkAgari(Meld3(1, 2, 3, Shuntsu), 1)]]
  {
    var d1 := [Meld3(2, 3, 4, Shuntsu), Meld3(1, 2, 3, Shuntsu)];
    assert MachiSlot(d1[0], 2, AllSlots) == Some(0);
    assert MachiSlot(d1[1], 2, AllSlots) == Some(1);
    assert Holding(d1, 2, AllSlots, 0) == [0, 1];
    assert Marked(d1, 2, AllSlots, 0) == [MarkAgari(Meld3(2, 3, 4, Shuntsu), 0), Meld3(1, 2, 3, Shuntsu)];
    assert Marked(d1, 2, AllSlots, 1) == [Meld3(2, 3, 4, Shuntsu), MarkAgari(Meld3(1, 2, 3, Shuntsu), 1)];
  }
}
