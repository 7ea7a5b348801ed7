/** The yaku of a finished `AgariState`, the score table of
    `AgariState::get_agari`, dora counting, the condition yaku and
    `get_best_agari`. */
module Yaku {
  import opened Wrappers
  import opened Tiles
  import opened Melds
  import opened AgariBuild

  /** Every yaku the evaluator can award, in the order of its check list
      (the condition and dora yaku first and last). A round or seat wind
      triplet carries the wind index. */
  datatype YakuName =
    | Riichi | Ippatsu
    | MenzenTsumo | Tanyao | Pinfu | BakazeYaku(wind: nat) | ZikazeYaku(wind: nat)
    | Haku | Hatsu | Chun | Iipeikou | SanshokuDoushun | Ittsu | Chanta | Chitoi
    | Toitoi | Sanankou | Sankantsu | SanshokuDoukou | Honroutou | Shosangen
    | Honitsu | Junchan | Ryampeikou | Chinitsu
    | Kokushi13 | Kokushi | SuuankouTanki | Suuankou | Daisangen | Daisuushi
    | Shousuushi | Tsuiso | Ryuiso | Chinroto | Sukantsu | Churen
    | Dora | Uradora

  /** A yaku and its han; a negative han counts yakuman (-1 single, -2 double). */
  datatype Yaku = Yaku(name: YakuName, han: int)

  // ---------------------------------------------------------------------
  // Tally cells. `koutsu.z[i]` is cell 27 + i, `shuntsu.s[i]` is cell 18 + i.
  // ---------------------------------------------------------------------

  /** The tally vectors of the state span a suit or the honours. */
  function Slice(v: seq<int>, from: nat, len: nat): seq<int>
    requires from + len <= |v|
  {
    v[from..from + len]
  }

  /** Runs, triplets and pairs of numbered suit `suit` (0 m, 1 p, 2 s). */
  function SuitTotal(a: AgariState, suit: nat): int
    requires Shaped(a) && suit < 3
  {
    Sum(Slice(a.shuntsu, 9 * suit, 9)) + Sum(Slice(a.koutsu, 9 * suit, 9)) + Sum(Slice(a.toitsu, 9 * suit, 9))
  }

  /** Iipeikou / ryampeikou count: each run cell contributes `x >> 1`
      (an arithmetic shift, so Dafny's floor division by 2). */
  function Peikou(s: seq<int>): int {
    if |s| == 0 then 0 else s[0] / 2 + Peikou(s[1..])
  }

  /** Han of a yaku that is worth more when the hand is concealed. */
  function MenzenHan(a: AgariState, closed: int, open: int): int {
    if a.menzen then closed else open
  }

  function Award(c: bool, y: Yaku): Option<Yaku> {
    if c then Some(y) else None
  }

  // ---------------------------------------------------------------------
  // The check list.
  // ---------------------------------------------------------------------

  /** The source indexes the honour triplets with the round and seat wind,
      and names them through a four-entry wind table when the test fires:
      a wind of 7 or more, or of 4 to 6 with a triplet in that cell, panics. */
  predicate WindsIndexable(a: AgariState) {
    && Shaped(a) && a.bakaze < 7 && a.zikaze < 7
    && (a.koutsu[27 + a.bakaze] == 1 ==> a.bakaze < 4)
    && (a.koutsu[27 + a.zikaze] == 1 ==> a.zikaze < 4)
  }

  function IsMenzenTsumo(a: AgariState): Option<Yaku> {
    Award(a.menzen && a.tsumo, Yaku(MenzenTsumo, 1))
  }

  function IsTanyao(a: AgariState): Option<Yaku> {
    Award(a.nYaochu == 0, Yaku(Tanyao, 1))
  }

  function IsPinfu(a: AgariState): Option<Yaku> {
    Award(a.pinfu, Yaku(Pinfu, 1))
  }

  function IsBakaze(a: AgariState): Option<Yaku>
    requires WindsIndexable(a)
  {
    Award(a.koutsu[27 + a.bakaze] == 1, Yaku(BakazeYaku(a.bakaze), 1))
  }

  function IsZikaze(a: AgariState): Option<Yaku>
    requires WindsIndexable(a)
  {
    Award(a.koutsu[27 + a.zikaze] == 1, Yaku(ZikazeYaku(a.zikaze), 1))
  }

  function IsHaku(a: AgariState): Option<Yaku>
    requires Shaped(a)
  {
    Award(a.koutsu[31] == 1, Yaku(Haku, 1))
  }

  function IsHatsu(a: AgariState): Option<Yaku>
    requires Shaped(a)
  {
    Award(a.koutsu[32] == 1, Yaku(Hatsu, 1))
  }

  function IsChun(a: AgariState): Option<Yaku>
    requires Shaped(a)
  {
    Award(a.koutsu[33] == 1, Yaku(Chun, 1))
  }

  function IsIipeikou(a: AgariState): Option<Yaku> {
    Award(a.menzen && Peikou(a.shuntsu) == 1, Yaku(Iipeikou, 1))
  }

  /** The same run in all three suits. */
  predicate SanshokuRun(a: AgariState)
    requires Shaped(a)
  {
    exists i :: 0 <= i < 7 && a.shuntsu[i] > 0 && a.shuntsu[9 + i] > 0 && a.shuntsu[18 + i] > 0
  }

  function IsSanshokuDoushun(a: AgariState): Option<Yaku>
    requires Shaped(a)
  {
    Award(SanshokuRun(a), Yaku(SanshokuDoushun, MenzenHan(a, 2, 1)))
  }

  /** 1-2-3, 4-5-6 and 7-8-9 of one suit. */
  predicate Straight(a: AgariState)
    requires Shaped(a)
  {
    exists suit :: 0 <= suit < 3 && a.shuntsu[9 * suit] > 0 && a.shuntsu[9 * suit + 3] > 0 && a.shuntsu[9 * suit + 6] > 0
  }

  function IsIttsu(a: AgariState): Option<Yaku>
    requires Shaped(a)
  {
    Award(Straight(a), Yaku(Ittsu, MenzenHan(a, 2, 1)))
  }

  function IsChanta(a: AgariState): Option<Yaku> {
    Award(a.nYaochu >= 5 && a.nZihai > 0 && a.nShuntsu > 0, Yaku(Chanta, MenzenHan(a, 2, 1)))
  }

  function IsChitoi(a: AgariState): Option<Yaku> {
    Award(a.nToitsu >= 7, Yaku(Chitoi, 2))
  }

  function IsToitoi(a: AgariState): Option<Yaku> {
    Award(a.nKoutsu >= 4, Yaku(Toitoi, 2))
  }

  function IsSanankou(a: AgariState): Option<Yaku> {
    Award(a.nAnkou == 3, Yaku(Sanankou, 2))
  }

  function IsSankantsu(a: AgariState): Option<Yaku> {
    Award(a.nKantsu == 3, Yaku(Sankantsu, 2))
  }

  /** The same triplet in all three suits. */
  predicate SanshokuSet(a: AgariState)
    requires Shaped(a)
  {
    exists i :: 0 <= i < 9 && a.koutsu[i] > 0 && a.koutsu[9 + i] > 0 && a.koutsu[18 + i] > 0
  }

  function IsSanshokuDoukou(a: AgariState): Option<Yaku>
    requires Shaped(a)
  {
    Award(SanshokuSet(a), Yaku(SanshokuDoukou, 2))
  }

  function IsHonroutou(a: AgariState): Option<Yaku> {
    Award(a.nShuntsu == 0 && a.nZihai > 0
          && ((a.nYaochu >= 4 && a.nKoutsu == 4) || (a.nYaochu >= 7 && a.nToitsu >= 7)),
          Yaku(Honroutou, 2))
  }

  function DragonSets(a: AgariState): int
    requires Shaped(a)
  {
    a.koutsu[31] + a.koutsu[32] + a.koutsu[33]
  }

  function IsShosangen(a: AgariState): Option<Yaku>
    requires Shaped(a)
  {
    Award(DragonSets(a) == 2 && a.toitsu[31] + a.toitsu[32] + a.toitsu[33] == 1, Yaku(Shosangen, 2))
  }

  /** One numbered suit plus honours: the suits are tried in order m, p, s. */
  function IsHonitsu(a: AgariState): Option<Yaku>
    requires Shaped(a)
  {
    Award(a.nZihai != 0 && (exists suit :: 0 <= suit < 3 && SuitTotal(a, suit) + a.nZihai >= 5),
          Yaku(Honitsu, MenzenHan(a, 3, 2)))
  }

  function IsJunchan(a: AgariState): Option<Yaku> {
    Award(a.nYaochu >= 5 && a.nShuntsu > 0 && a.nZihai == 0, Yaku(Junchan, MenzenHan(a, 2, 1)))
  }

  function IsRyampeikou(a: AgariState): Option<Yaku> {
    Award(a.menzen && Peikou(a.shuntsu) == 2, Yaku(Ryampeikou, 3))
  }

  function IsChinitsu(a: AgariState): Option<Yaku>
    requires Shaped(a)
  {
    Award(a.nZihai <= 0 && (exists suit :: 0 <= suit < 3 && SuitTotal(a, suit) >= 5),
          Yaku(Chinitsu, MenzenHan(a, 6, 5)))
  }

  function IsKokushi(a: AgariState): Option<Yaku> {
    if !a.kokushi then None
    else if a.tanki then Some(Yaku(Kokushi13, -2))
    else Some(Yaku(Kokushi, -1))
  }

  function IsSuuankou(a: AgariState): Option<Yaku> {
    if a.nAnkou < 4 then None
    else if a.tanki then Some(Yaku(SuuankouTanki, -2))
    else Some(Yaku(Suuankou, -1))
  }

  function IsDaisangen(a: AgariState): Option<Yaku>
    requires Shaped(a)
  {
    Award(DragonSets(a) == 3, Yaku(Daisangen, -1))
  }

  function WindSets(a: AgariState): int
    requires Shaped(a)
  {
    Sum(Slice(a.koutsu, 27, 4))
  }

  function WindPairs(a: AgariState): int
    requires Shaped(a)
  {
    Sum(Slice(a.toitsu, 27, 4))
  }

  /** Four wind triplets are the double yakuman; otherwise four wind groups
      counting pairs are the single one. */
  function IsSushiho(a: AgariState): Option<Yaku>
    requires Shaped(a)
  {
    if WindSets(a) == 4 then Some(Yaku(Daisuushi, -2))
    else if WindSets(a) + WindPairs(a) >= 4 then Some(Yaku(Shousuushi, -1))
    else None
  }

  function IsTsuiso(a: AgariState): Option<Yaku>
    requires Shaped(a)
  {
    var pairs := Sum(Slice(a.toitsu, 27, 7));
    Award(pairs >= 7 || Sum(Slice(a.koutsu, 27, 7)) + pairs >= 5, Yaku(Tsuiso, -1))
  }

  /** Green tiles: 2, 3, 4, 6 and 8 of sou and the green dragon; the only
      green run is 2-3-4 of sou. */
  function IsRyuiso(a: AgariState): Option<Yaku>
    requires Shaped(a)
  {
    var t := a.toitsu;
    var k := a.koutsu;
    var pairs := t[19] + t[20] + t[21] + t[23] + t[25] + t[32];
    var sets := k[19] + k[20] + k[21] + k[23] + k[25] + k[32];
    Award(pairs > 0 && a.shuntsu[19] + sets >= 4, Yaku(Ryuiso, -1))
  }

  function IsChinroto(a: AgariState): Option<Yaku>
    requires Shaped(a)
  {
    var t := a.toitsu;
    var k := a.koutsu;
    var pairs := t[0] + t[8] + t[9] + t[17] + t[18] + t[26];
    var sets := k[0] + k[8] + k[9] + k[17] + k[18] + k[26];
    Award(pairs > 0 && sets >= 4, Yaku(Chinroto, -1))
  }

  function IsSukantsu(a: AgariState): Option<Yaku> {
    Award(a.nKantsu == 4, Yaku(Sukantsu, -1))
  }

  function IsChuren(a: AgariState): Option<Yaku> {
    Award(a.churen, Yaku(Churen, -1))
  }

  /** The results of the 32 checks, in the order of `get_yaku_list`, in
      four groups of eight. */
  function Checks(a: AgariState): (r: seq<Option<Yaku>>)
    requires WindsIndexable(a)
  {
    ChecksA(a) + ChecksB(a) + ChecksC(a) + ChecksD(a)
  }

  function ChecksA(a: AgariState): (r: seq<Option<Yaku>>)
    requires WindsIndexable(a)
  {
    [IsMenzenTsumo(a), IsTanyao(a), IsPinfu(a), IsBakaze(a), IsZikaze(a), IsHaku(a), IsHatsu(a), IsChun(a)]
  }

  function ChecksB(a: AgariState): (r: seq<Option<Yaku>>)
    requires Shaped(a)
  {
    [IsIipeikou(a), IsSanshokuDoushun(a), IsIttsu(a), IsChanta(a), IsChitoi(a), IsToitoi(a),
     IsSanankou(a), IsSankantsu(a)]
  }

  function ChecksC(a: AgariState): (r: seq<Option<Yaku>>)
    requires Shaped(a)
  {
    [IsSanshokuDoukou(a), IsHonroutou(a), IsShosangen(a), IsHonitsu(a), IsJunchan(a), IsRyampeikou(a),
     IsChinitsu(a), IsKokushi(a)]
  }

  function ChecksD(a: AgariState): (r: seq<Option<Yaku>>)
    requires Shaped(a)
  {
    [IsSuuankou(a), IsDaisangen(a), IsSushiho(a), IsTsuiso(a), IsRyuiso(a), IsChinroto(a), IsSukantsu(a), IsChuren(a)]
  }

  /** The awarded entries of a list of checks, in order. */
  function Flat(os: seq<Option<Yaku>>): seq<Yaku> {
    if |os| == 0 then []
    else (if os[0].Some? then [os[0].value] else []) + Flat(os[1..])
  }

  /** `get_yaku_list`. */
  function YakuList(a: AgariState): seq<Yaku>
    requires WindsIndexable(a)
  {
    Flat(Checks(a))
  }

  // ---------------------------------------------------------------------
  // What the list holds.
  // ---------------------------------------------------------------------

  /** Position of a yaku in the check list (the condition yaku before it,
      the dora after it). */
  function Rank(n: YakuName): nat {
    match n
    case Riichi => 0 case Ippatsu => 1
    case MenzenTsumo => 2 case Tanyao => 3 case Pinfu => 4 case BakazeYaku(_) => 5
    case ZikazeYaku(_) => 6 case Haku => 7 case Hatsu => 8 case Chun => 9
    case Iipeikou => 10 case SanshokuDoushun => 11 case Ittsu => 12 case Chanta => 13
    case Chitoi => 14 case Toitoi => 15 case Sanankou => 16 case Sankantsu => 17
    case SanshokuDoukou => 18 case Honroutou => 19 case Shosangen => 20 case Honitsu => 21
    case Junchan => 22 case Ryampeikou => 23 case Chinitsu => 24
    case Kokushi13 => 25 case Kokushi => 25 case SuuankouTanki => 26 case Suuankou => 26
    case Daisangen => 27 case Daisuushi => 28 case Shousuushi => 28 case Tsuiso => 29
    case Ryuiso => 30 case Chinroto => 31 case Sukantsu => 32 case Churen => 33
    case Dora => 34 case Uradora => 35
  }

  /** The yakuman: the names whose han is negative. */
  predicate YakumanName(n: YakuName) {
    25 <= Rank(n) <= 33
  }

  /** Entry `i` of a check list is absent or a yaku of rank `i + offset`
      whose han is non-zero and negative exactly for a yakuman. */
  predicate RankedChecks(os: seq<Option<Yaku>>, offset: nat) {
    forall i :: 0 <= i < |os| && os[i].Some? ==>
      Rank(os[i].value.name) == i + offset && os[i].value.han != 0
      && (os[i].value.han < 0 <==> YakumanName(os[i].value.name))
  }

  /** Yaku in strictly increasing check-list rank: so no yaku twice. */
  predicate Ordered(ys: seq<Yaku>) {
    forall i, j :: 0 <= i < j < |ys| ==> Rank(ys[i].name) < Rank(ys[j].name)
  }

  predicate WellSigned(ys: seq<Yaku>) {
    forall i :: 0 <= i < |ys| ==> ys[i].han != 0 && (ys[i].han < 0 <==> YakumanName(ys[i].name))
  }

  lemma RankedAppend(x: seq<Option<Yaku>>, y: seq<Option<Yaku>>, offset: nat)
    requires RankedChecks(x, offset) && RankedChecks(y, offset + |x|)
    ensures RankedChecks(x + y, offset)
  {
    forall i | 0 <= i < |x + y| && (x + y)[i].Some?
      ensures Rank((x + y)[i].value.name) == i + offset
    {
      if i >= |x| {
        assert (x + y)[i] == y[i - |x|];
      }
    }
  }

  lemma CheckRankedA0(a: AgariState, i: nat)
    requires WindsIndexable(a) && 0 <= i < 2 && ChecksA(a)[i].Some?
    ensures var y := ChecksA(a)[i].value;
      Rank(y.name) == i + 2 && y.han != 0 && (y.han < 0 <==> YakumanName(y.name))
  {
    if i == 0 {
      assert ChecksA(a)[i] == IsMenzenTsumo(a);
    } else {
      assert ChecksA(a)[i] == IsTanyao(a);
    }
  }

  lemma CheckRankedA1(a: AgariState, i: nat)
    requires WindsIndexable(a) && 2 <= i < 4 && ChecksA(a)[i].Some?
    ensures var y := ChecksA(a)[i].value;
      Rank(y.name) == i + 2 && y.han != 0 && (y.han < 0 <==> YakumanName(y.name))
  {
    if i == 2 {
      assert ChecksA(a)[i] == IsPinfu(a);
    } else {
      assert ChecksA(a)[i] == IsBakaze(a);
    }
  }

  lemma CheckRankedA2(a: AgariState, i: nat)
    requires WindsIndexable(a) && 4 <= i < 6 && ChecksA(a)[i].Some?
    ensures var y := ChecksA(a)[i].value;
      Rank(y.name) == i + 2 && y.han != 0 && (y.han < 0 <==> YakumanName(y.name))
  {
    if i == 4 {
      assert ChecksA(a)[i] == IsZikaze(a);
    } else {
      assert ChecksA(a)[i] == IsHaku(a);
    }
  }

  lemma CheckRankedA3(a: AgariState, i: nat)
    requires WindsIndexable(a) && 6 <= i < 8 && ChecksA(a)[i].Some?
    ensures var y := ChecksA(a)[i].value;
      Rank(y.name) == i + 2 && y.han != 0 && (y.han < 0 <==> YakumanName(y.name))
  {
    if i == 6 {
      assert ChecksA(a)[i] == IsHatsu(a);
    } else {
      assert ChecksA(a)[i] == IsChun(a);
    }
  }

  lemma CheckRankedA(a: AgariState, i: nat)
    requires WindsIndexable(a) && i < 8 && ChecksA(a)[i].Some?
    ensures var y := ChecksA(a)[i].value;
      Rank(y.name) == i + 2 && y.han != 0 && (y.han < 0 <==> YakumanName(y.name))
  {
    if i < 2 { CheckRankedA0(a, i); }
    else if i < 4 { CheckRankedA1(a, i); }
    else if i < 6 { CheckRankedA2(a, i); }
    else { CheckRankedA3(a, i); }
  }

  lemma CheckRankedB0(a: AgariState, i: nat)
    requires Shaped(a) && 0 <= i < 2 && ChecksB(a)[i].Some?
    ensures var y := ChecksB(a)[i].value;
      Rank(y.name) == i + 10 && y.han != 0 && (y.han < 0 <==> YakumanName(y.name))
  {
    if i == 0 {
      assert ChecksB(a)[i] == IsIipeikou(a);
    } else {
      assert ChecksB(a)[i] == IsSanshokuDoushun(a);
    }
  }

  lemma CheckRankedB1(a: AgariState, i: nat)
    requires Shaped(a) && 2 <= i < 4 && ChecksB(a)[i].Some?
    ensures var y := ChecksB(a)[i].value;
      Rank(y.name) == i + 10 && y.han != 0 && (y.han < 0 <==> YakumanName(y.name))
  {
    if i == 2 {
      assert ChecksB(a)[i] == IsIttsu(a);
    } else {
      assert ChecksB(a)[i] == IsChanta(a);
    }
  }

  lemma CheckRankedB2(a: AgariState, i: nat)
    requires Shaped(a) && 4 <= i < 6 && ChecksB(a)[i].Some?
    ensures var y := ChecksB(a)[i].value;
      Rank(y.name) == i + 10 && y.han != 0 && (y.han < 0 <==> YakumanName(y.name))
  {
    if i == 4 {
      assert ChecksB(a)[i] == IsChitoi(a);
    } else {
      assert ChecksB(a)[i] == IsToitoi(a);
    }
  }

  lemma CheckRankedB3(a: AgariState, i: nat)
    requires Shaped(a) && 6 <= i < 8 && ChecksB(a)[i].Some?
    ensures var y := ChecksB(a)[i].value;
      Rank(y.name) == i + 10 && y.han != 0 && (y.han < 0 <==> YakumanName(y.name))
  {
    if i == 6 {
      assert ChecksB(a)[i] == IsSanankou(a);
    } else {
      assert ChecksB(a)[i] == IsSankantsu(a);
    }
  }

  lemma CheckRankedB(a: AgariState, i: nat)
    requires Shaped(a) && i < 8 && ChecksB(a)[i].Some?
    ensures var y := ChecksB(a)[i].value;
      Rank(y.name) == i + 10 && y.han != 0 && (y.han < 0 <==> YakumanName(y.name))
  {
    if i < 2 { CheckRankedB0(a, i); }
    else if i < 4 { CheckRankedB1(a, i); }
    else if i < 6 { CheckRankedB2(a, i); }
    else { CheckRankedB3(a, i); }
  }

  lemma CheckRankedC0(a: AgariState, i: nat)
    requires Shaped(a) && 0 <= i < 2 && ChecksC(a)[i].Some?
    ensures var y := ChecksC(a)[i].value;
      Rank(y.name) == i + 18 && y.han != 0 && (y.han < 0 <==> YakumanName(y.name))
  {
    if i == 0 {
      assert ChecksC(a)[i] == IsSanshokuDoukou(a);
    } else {
      assert ChecksC(a)[i] == IsHonroutou(a);
    }
  }

  lemma CheckRankedC1(a: AgariState, i: nat)
    requires Shaped(a) && 2 <= i < 4 && ChecksC(a)[i].Some?
    ensures var y := ChecksC(a)[i].value;
      Rank(y.name) == i + 18 && y.han != 0 && (y.han < 0 <==> YakumanName(y.name))
  {
    if i == 2 {
      assert ChecksC(a)[i] == IsShosangen(a);
    } else {
      assert ChecksC(a)[i] == IsHonitsu(a);
    }
  }

  lemma CheckRankedC2(a: AgariState, i: nat)
    requires Shaped(a) && 4 <= i < 6 && ChecksC(a)[i].Some?
    ensures var y := ChecksC(a)[i].value;
      Rank(y.name) == i + 18 && y.han != 0 && (y.han < 0 <==> YakumanName(y.name))
  {
    if i == 4 {
      assert ChecksC(a)[i] == IsJunchan(a);
    } else {
      assert ChecksC(a)[i] == IsRyampeikou(a);
    }
  }

  lemma CheckRankedC3(a: AgariState, i: nat)
    requires Shaped(a) && 6 <= i < 8 && ChecksC(a)[i].Some?
    ensures var y := ChecksC(a)[i].value;
      Rank(y.name) == i + 18 && y.han != 0 && (y.han < 0 <==> YakumanName(y.name))
  {
    if i == 6 {
      assert ChecksC(a)[i] == IsChinitsu(a);
    } else {
      assert ChecksC(a)[i] == IsKokushi(a);
    }
  }

  lemma CheckRankedC(a: AgariState, i: nat)
    requires Shaped(a) && i < 8 && ChecksC(a)[i].Some?
    ensures var y := ChecksC(a)[i].value;
      Rank(y.name) == i + 18 && y.han != 0 && (y.han < 0 <==> YakumanName(y.name))
  {
    if i < 2 { CheckRankedC0(a, i); }
    else if i < 4 { CheckRankedC1(a, i); }
    else if i < 6 { CheckRankedC2(a, i); }
    else { CheckRankedC3(a, i); }
  }

  lemma CheckRankedD0(a: AgariState, i: nat)
    requires Shaped(a) && 0 <= i < 2 && ChecksD(a)[i].Some?
    ensures var y := ChecksD(a)[i].value;
      Rank(y.name) == i + 26 && y.han != 0 && (y.han < 0 <==> YakumanName(y.name))
  {
    if i == 0 {
      assert ChecksD(a)[i] == IsSuuankou(a);
    } else {
      assert ChecksD(a)[i] == IsDaisangen(a);
    }
  }

  lemma CheckRankedD1(a: AgariState, i: nat)
    requires Shaped(a) && 2 <= i < 4 && ChecksD(a)[i].Some?
    ensures var y := ChecksD(a)[i].value;
      Rank(y.name) == i + 26 && y.han != 0 && (y.han < 0 <==> YakumanName(y.name))
  {
    if i == 2 {
      assert ChecksD(a)[i] == IsSushiho(a);
    } else {
      assert ChecksD(a)[i] == IsTsuiso(a);
    }
  }

  lemma CheckRankedD2(a: AgariState, i: nat)
    requires Shaped(a) && 4 <= i < 6 && ChecksD(a)[i].Some?
    ensures var y := ChecksD(a)[i].value;
      Rank(y.name) == i + 26 && y.han != 0 && (y.han < 0 <==> YakumanName(y.name))
  {
    if i == 4 {
      assert ChecksD(a)[i] == IsRyuiso(a);
    } else {
      assert ChecksD(a)[i] == IsChinroto(a);
    }
  }

  lemma CheckRankedD3(a: AgariState, i: nat)
    requires Shaped(a) && 6 <= i < 8 && ChecksD(a)[i].Some?
    ensures var y := ChecksD(a)[i].value;
      Rank(y.name) == i + 26 && y.han != 0 && (y.han < 0 <==> YakumanName(y.name))
  {
    if i == 6 {
      assert ChecksD(a)[i] == IsSukantsu(a);
    } else {
      assert ChecksD(a)[i] == IsChuren(a);
    }
  }

  lemma CheckRankedD(a: AgariState, i: nat)
    requires Shaped(a) && i < 8 && ChecksD(a)[i].Some?
    ensures var y := ChecksD(a)[i].value;
      Rank(y.name) == i + 26 && y.han != 0 && (y.han < 0 <==> YakumanName(y.name))
  {
    if i < 2 { CheckRankedD0(a, i); }
    else if i < 4 { CheckRankedD1(a, i); }
    else if i < 6 { CheckRankedD2(a, i); }
    else { CheckRankedD3(a, i); }
  }

  lemma ChecksARanked(a: AgariState)
    requires WindsIndexable(a)
    ensures |ChecksA(a)| == 8 && RankedChecks(ChecksA(a), 2)
  {
    var c := ChecksA(a);
    forall i | 0 <= i < 8 && c[i].Some?
      ensures Rank(c[i].value.name) == i + 2 && c[i].value.han != 0
      ensures c[i].value.han < 0 <==> YakumanName(c[i].value.name)
    {
      CheckRankedA(a, i);
    }
  }

  lemma ChecksBRanked(a: AgariState)
    requires Shaped(a)
    ensures |ChecksB(a)| == 8 && RankedChecks(ChecksB(a), 10)
  {
    var c := ChecksB(a);
    forall i | 0 <= i < 8 && c[i].Some?
      ensures Rank(c[i].value.name) == i + 10 && c[i].value.han != 0
      ensures c[i].value.han < 0 <==> YakumanName(c[i].value.name)
    {
      CheckRankedB(a, i);
    }
  }

  lemma ChecksCRanked(a: AgariState)
    requires Shaped(a)
    ensures |ChecksC(a)| == 8 && RankedChecks(ChecksC(a), 18)
  {
    var c := ChecksC(a);
    forall i | 0 <= i < 8 && c[i].Some?
      ensures Rank(c[i].value.name) == i + 18 && c[i].value.han != 0
      ensures c[i].value.han < 0 <==> YakumanName(c[i].value.name)
    {
      CheckRankedC(a, i);
    }
  }

  lemma ChecksDRanked(a: AgariState)
    requires Shaped(a)
    ensures |ChecksD(a)| == 8 && RankedChecks(ChecksD(a), 26)
  {
    var c := ChecksD(a);
    forall i | 0 <= i < 8 && c[i].Some?
      ensures Rank(c[i].value.name) == i + 26 && c[i].value.han != 0
      ensures c[i].value.han < 0 <==> YakumanName(c[i].value.name)
    {
      CheckRankedD(a, i);
    }
  }

  lemma ChecksRanked(a: AgariState)
    requires WindsIndexable(a)
    ensures |Checks(a)| == 32 && RankedChecks(Checks(a), 2)
  {
    ChecksARanked(a);
    ChecksBRanked(a);
    ChecksCRanked(a);
    ChecksDRanked(a);
    RankedAppend(ChecksA(a), ChecksB(a), 2);
    RankedAppend(ChecksA(a) + ChecksB(a), ChecksC(a), 2);
    RankedAppend(ChecksA(a) + ChecksB(a) + ChecksC(a), ChecksD(a), 2);
  }

  lemma {:induction false} FlatOrdered(os: seq<Option<Yaku>>, offset: nat)
    requires RankedChecks(os, offset)
    ensures Ordered(Flat(os)) && WellSigned(Flat(os))
    ensures forall i :: 0 <= i < |Flat(os)| ==> Rank(Flat(os)[i].name) >= offset
    decreases |os|
  {
    if |os| > 0 {
      FlatOrdered(os[1..], offset + 1);
      assert RankedChecks(os[1..], offset + 1) by {
        forall i | 0 <= i < |os[1..]| && os[1..][i].Some?
          ensures Rank(os[1..][i].value.name) == i + offset + 1
        {
          assert os[1..][i] == os[i + 1];
        }
      }
    }
  }

  /** Membership in the flattened list is membership among the checks. */
  lemma {:induction false} FlatMember(os: seq<Option<Yaku>>, y: Yaku)
    ensures y in Flat(os) <==> Some(y) in os
    decreases |os|
  {
    if |os| > 0 {
      FlatMember(os[1..], y);
      assert os == [os[0]] + os[1..];
    }
  }

  /** The list of `get_yaku_list` follows the check list: every yaku at most
      once, in check-list order, with a non-zero han that is negative
      exactly for the yakuman. */
  lemma YakuListOrdered(a: AgariState)
    requires WindsIndexable(a)
    ensures Ordered(YakuList(a)) && WellSigned(YakuList(a))
  {
    ChecksRanked(a);
    FlatOrdered(Checks(a), 2);
  }

  /** In a ranked check list a yaku can only come from the check of its rank. */
  lemma ListedAtRank(os: seq<Option<Yaku>>, offset: nat, y: Yaku)
    requires RankedChecks(os, offset) && offset <= Rank(y.name) < offset + |os|
    ensures y in Flat(os) <==> os[Rank(y.name) - offset] == Some(y)
  {
    FlatMember(os, y);
    var k := Rank(y.name) - offset;
    if y in Flat(os) {
      var i :| 0 <= i < |os| && os[i] == Some(y);
      assert os[i].Some? && Rank(os[i].value.name) == i + offset;
    } else {
      assert os[k] in os;
    }
  }

  /** Tanyao is awarded exactly when no terminal or honour was counted. */
  lemma TanyaoListed(a: AgariState)
    requires WindsIndexable(a)
    ensures Yaku(Tanyao, 1) in YakuList(a) <==> a.nYaochu == 0
  {
    ChecksRanked(a);
    ListedAtRank(Checks(a), 2, Yaku(Tanyao, 1));
    assert Checks(a)[1] == ChecksA(a)[1];
  }

  /** A hand of simples is awarded tanyao, and only such a hand is. */
  lemma TanyaoIffSimples(bakaze: nat, zikaze: nat, mentsu: seq<Mentsu>, fulo: seq<Mentsu>, v: Version)
    requires forall i :: 0 <= i < |mentsu| ==> ConcealedIndexable(mentsu[i]) && ConcealedShape(mentsu[i])
    requires forall i :: 0 <= i < |fulo| ==> DeclaredIndexable(fulo[i]) && DeclaredShape(fulo[i])
    requires WindsIndexable(GetAgari(bakaze, zikaze, mentsu, fulo, v))
    ensures Yaku(Tanyao, 1) in YakuList(GetAgari(bakaze, zikaze, mentsu, fulo, v)) <==>
      (forall i :: 0 <= i < |mentsu| ==> Simple(mentsu[i])) && (forall i :: 0 <= i < |fulo| ==> Simple(fulo[i]))
  {
    NoYaochuIffSimple(bakaze, zikaze, mentsu, fulo, v);
    TanyaoListed(GetAgari(bakaze, zikaze, mentsu, fulo, v));
  }

  lemma PinfuListed(a: AgariState)
    requires WindsIndexable(a)
    ensures Yaku(Pinfu, 1) in YakuList(a) <==> a.pinfu
  {
    ChecksRanked(a);
    ListedAtRank(Checks(a), 2, Yaku(Pinfu, 1));
    assert Checks(a)[2] == ChecksA(a)[2];
  }

  /** Pinfu is awarded exactly for a concealed hand of fu-free melds that is
      not seven pairs. */
  lemma PinfuIffFuFree(bakaze: nat, zikaze: nat, mentsu: seq<Mentsu>, fulo: seq<Mentsu>, v: Version)
    requires forall i :: 0 <= i < |mentsu| ==> ConcealedIndexable(mentsu[i]) && ConcealedShape(mentsu[i])
    requires forall i :: 0 <= i < |fulo| ==> DeclaredIndexable(fulo[i]) && DeclaredShape(fulo[i])
    requires WindsIndexable(GetAgari(bakaze, zikaze, mentsu, fulo, v))
    ensures Yaku(Pinfu, 1) in YakuList(GetAgari(bakaze, zikaze, mentsu, fulo, v)) <==>
      |fulo| == 0 && CountType(mentsu, Atama) < 7 && forall i :: 0 <= i < |mentsu| ==> FuFree(mentsu[i], v, bakaze, zikaze)
  {
    PinfuMeaning(bakaze, zikaze, mentsu, fulo, v);
    PinfuListed(GetAgari(bakaze, zikaze, mentsu, fulo, v));
  }

  /** Pairs of yaku the check list never awards together. */
  lemma ExclusiveYaku(a: AgariState)
    requires WindsIndexable(a) && a.nZihai >= 0
    ensures !(IsIipeikou(a).Some? && IsRyampeikou(a).Some?)
    ensures !(IsChanta(a).Some? && IsJunchan(a).Some?)
    ensures !(IsHonitsu(a).Some? && IsChinitsu(a).Some?)
    ensures !(IsChanta(a).Some? && IsHonroutou(a).Some?)
    ensures !(IsShosangen(a).Some? && IsDaisangen(a).Some?)
  {
  }

  /** The han table of the yaku: concealed and open values where they
      differ, -2 for the double yakuman and -1 for the single ones. Dora
      are counted per tile, so their entry is 0. */
  function ListedHan(n: YakuName, menzen: bool): int {
    match n
    case SanshokuDoushun => if menzen then 2 else 1
    case Ittsu => if menzen then 2 else 1
    case Chanta => if menzen then 2 else 1
    case Junchan => if menzen then 2 else 1
    case Honitsu => if menzen then 3 else 2
    case Chinitsu => if menzen then 6 else 5
    case Chitoi => 2 case Toitoi => 2 case Sanankou => 2 case Sankantsu => 2
    case SanshokuDoukou => 2 case Honroutou => 2 case Shosangen => 2
    case Ryampeikou => 3
    case Kokushi13 => -2 case SuuankouTanki => -2 case Daisuushi => -2
    case Kokushi => -1 case Suuankou => -1 case Daisangen => -1 case Shousuushi => -1
    case Tsuiso => -1 case Ryuiso => -1 case Chinroto => -1 case Sukantsu => -1 case Churen => -1
    case Dora => 0 case Uradora => 0
    case _ => 1
  }

  /** Every entry of a check list carries its tabled han. */
  predicate Priced(os: seq<Option<Yaku>>, menzen: bool) {
    forall i :: 0 <= i < |os| && os[i].Some? ==> os[i].value.han == ListedHan(os[i].value.name, menzen)
  }

  lemma PricedAppend(x: seq<Option<Yaku>>, y: seq<Option<Yaku>>, menzen: bool)
    requires Priced(x, menzen) && Priced(y, menzen)
    ensures Priced(x + y, menzen)
  {
    forall i | 0 <= i < |x + y| && (x + y)[i].Some?
      ensures (x + y)[i].value.han == ListedHan((x + y)[i].value.name, menzen)
    {
      if i >= |x| {
        assert (x + y)[i] == y[i - |x|];
      }
    }
  }

  lemma ChecksAPriced(a: AgariState)
    requires WindsIndexable(a)
    ensures Priced(ChecksA(a), a.menzen)
  {
  }

  lemma ChecksBPriced(a: AgariState)
    requires Shaped(a)
    ensures Priced(ChecksB(a), a.menzen)
  {
  }

  /** An absent check, or a present one with its tabled han. */
  predicate PricedOpt(o: Option<Yaku>, menzen: bool) {
    o.Some? ==> o.value.han == ListedHan(o.value.name, menzen)
  }

  lemma Priced8(o0: Option<Yaku>, o1: Option<Yaku>, o2: Option<Yaku>, o3: Option<Yaku>,
                o4: Option<Yaku>, o5: Option<Yaku>, o6: Option<Yaku>, o7: Option<Yaku>, menzen: bool)
    requires PricedOpt(o0, menzen) && PricedOpt(o1, menzen) && PricedOpt(o2, menzen) && PricedOpt(o3, menzen)
    requires PricedOpt(o4, menzen) && PricedOpt(o5, menzen) && PricedOpt(o6, menzen) && PricedOpt(o7, menzen)
    ensures Priced([o0, o1, o2, o3, o4, o5, o6, o7], menzen)
  {
  }

  lemma SanshokuDoukouPriced(a: AgariState)
    requires Shaped(a)
    ensures PricedOpt(IsSanshokuDoukou(a), a.menzen)
  {
  }

  lemma HonroutouPriced(a: AgariState)
    requires Shaped(a)
    ensures PricedOpt(IsHonroutou(a), a.menzen)
  {
  }

  lemma ShosangenPriced(a: AgariState)
    requires Shaped(a)
    ensures PricedOpt(IsShosangen(a), a.menzen)
  {
  }

  lemma HonitsuPriced(a: AgariState)
    requires Shaped(a)
    ensures PricedOpt(IsHonitsu(a), a.menzen)
  {
  }

  lemma JunchanPriced(a: AgariState)
    requires Shaped(a)
    ensures PricedOpt(IsJunchan(a), a.menzen)
  {
  }

  lemma RyampeikouPriced(a: AgariState)
    requires Shaped(a)
    ensures PricedOpt(IsRyampeikou(a), a.menzen)
  {
  }

  lemma ChinitsuPriced(a: AgariState)
    requires Shaped(a)
    ensures PricedOpt(IsChinitsu(a), a.menzen)
  {
  }

  lemma KokushiPriced(a: AgariState)
    requires Shaped(a)
    ensures PricedOpt(IsKokushi(a), a.menzen)
  {
  }

  lemma SuuankouPriced(a: AgariState)
    requires Shaped(a)
    ensures PricedOpt(IsSuuankou(a), a.menzen)
  {
  }

  lemma DaisangenPriced(a: AgariState)
    requires Shaped(a)
    ensures PricedOpt(IsDaisangen(a), a.menzen)
  {
  }

  lemma SushihoPriced(a: AgariState)
    requires Shaped(a)
    ensures PricedOpt(IsSushiho(a), a.menzen)
  {
  }

  lemma TsuisoPriced(a: AgariState)
    requires Shaped(a)
    ensures PricedOpt(IsTsuiso(a), a.menzen)
  {
  }

  lemma RyuisoPriced(a: AgariState)
    requires Shaped(a)
    ensures PricedOpt(IsRyuiso(a), a.menzen)
  {
  }

  lemma ChinrotoPriced(a: AgariState)
    requires Shaped(a)
    ensures PricedOpt(IsChinroto(a), a.menzen)
  {
  }

  lemma SukantsuPriced(a: AgariState)
    requires Shaped(a)
    ensures PricedOpt(IsSukantsu(a), a.menzen)
  {
  }

  lemma ChurenPriced(a: AgariState)
    requires Shaped(a)
    ensures PricedOpt(IsChuren(a), a.menzen)
  {
  }

  lemma ChecksCPriced(a: AgariState)
    requires Shaped(a)
    ensures Priced(ChecksC(a), a.menzen)
  {
    SanshokuDoukouPriced(a);
    HonroutouPriced(a);
    ShosangenPriced(a);
    HonitsuPriced(a);
    JunchanPriced(a);
    RyampeikouPriced(a);
    ChinitsuPriced(a);
    KokushiPriced(a);
    Priced8(IsSanshokuDoukou(a), IsHonroutou(a), IsShosangen(a), IsHonitsu(a), IsJunchan(a), IsRyampeikou(a), IsChinitsu(a), IsKokushi(a), a.menzen);
  }

  lemma ChecksDPriced(a: AgariState)
    requires Shaped(a)
    ensures Priced(ChecksD(a), a.menzen)
  {
    SuuankouPriced(a);
    DaisangenPriced(a);
    SushihoPriced(a);
    TsuisoPriced(a);
    RyuisoPriced(a);
    ChinrotoPriced(a);
    SukantsuPriced(a);
    ChurenPriced(a);
    Priced8(IsSuuankou(a), IsDaisangen(a), IsSushiho(a), IsTsuiso(a), IsRyuiso(a), IsChinroto(a), IsSukantsu(a), IsChuren(a), a.menzen);
  }

  /** Every yaku `get_yaku_list` awards carries the han of the table, for
      the hand's concealment. */
  lemma YakuHanTable(a: AgariState)
    requires WindsIndexable(a)
    ensures forall y :: y in YakuList(a) ==> y.han == ListedHan(y.name, a.menzen)
  {
    ChecksAPriced(a);
    ChecksBPriced(a);
    ChecksCPriced(a);
    ChecksDPriced(a);
    PricedAppend(ChecksA(a), ChecksB(a), a.menzen);
    PricedAppend(ChecksA(a) + ChecksB(a), ChecksC(a), a.menzen);
    PricedAppend(ChecksA(a) + ChecksB(a) + ChecksC(a), ChecksD(a), a.menzen);
    forall y | y in YakuList(a)
      ensures y.han == ListedHan(y.name, a.menzen)
    {
      FlatMember(Checks(a), y);
    }
  }

  // ---------------------------------------------------------------------
  // Score.
  // ---------------------------------------------------------------------

  /** `Agari`: the score, fu, han and awarded yaku. */
  datatype Agari = Agari(score: int, fu: int, han: int, yaku: seq<Yaku>)

  /** `Agari::default()`. */
  const NoAgari: Agari := Agari(0, 0, 0, [])

  /** Sum of the negative han (the yakuman count, negated). */
  function YakumanSum(ys: seq<Yaku>): int {
    if |ys| == 0 then 0 else (if ys[0].han < 0 then ys[0].han else 0) + YakumanSum(ys[1..])
  }

  /** Sum of the positive han. */
  function HanSum(ys: seq<Yaku>): int {
    if |ys| == 0 then 0 else (if ys[0].han > 0 then ys[0].han else 0) + HanSum(ys[1..])
  }

  function Yakuman(ys: seq<Yaku>): seq<Yaku> {
    if |ys| == 0 then [] else (if ys[0].han < 0 then [ys[0]] else []) + Yakuman(ys[1..])
  }

  function Pow2(n: nat): (r: nat)
    ensures r >= 1
  {
    if n == 0 then 1 else 2 * Pow2(n - 1)
  }

  /** `(x + 99) / 100 * 100` with Rust's truncating division. */
  function RoundUp100(x: int): int {
    var y := x + 99;
    (if y >= 0 then y / 100 else -((-y) / 100)) * 100
  }

  /** The limit bands from 6 han up, otherwise `fu << (4 + han)` rounded up
      to 100 and capped at 8000. */
  function LimitScore(fu: int, han: nat): int {
    if han >= 13 then 32000
    else if han >= 11 then 24000
    else if han >= 8 then 16000
    else if han >= 6 then 12000
    else
      var base := RoundUp100(fu * Pow2(4 + han));
      if base < 8000 then base else 8000
  }

  /** `AgariState::get_agari`: no yaku scores nothing; any yakuman scores
      32000 per yakuman and keeps only the yakuman; otherwise fu and han
      are looked up in the table. */
  function Score(a: AgariState, ys: seq<Yaku>): Agari {
    if |ys| == 0 then NoAgari
    else if YakumanSum(ys) < 0 then Agari(32000 * -YakumanSum(ys), 0, 0, Yakuman(ys))
    else
      HanSumNonNegative(ys);
      Agari(LimitScore(a.fu, HanSum(ys)), a.fu, HanSum(ys), ys)
  }

  lemma {:induction false} YakumanSumSign(ys: seq<Yaku>)
    ensures YakumanSum(ys) <= 0
    ensures YakumanSum(ys) < 0 <==> exists i :: 0 <= i < |ys| && ys[i].han < 0
    decreases |ys|
  {
    if |ys| > 0 {
      YakumanSumSign(ys[1..]);
      if exists i :: 1 <= i < |ys| && ys[i].han < 0 {
        var i :| 1 <= i < |ys| && ys[i].han < 0;
        assert ys[1..][i - 1].han < 0;
      }
    }
  }

  lemma {:induction false} HanSumNonNegative(ys: seq<Yaku>)
    ensures HanSum(ys) >= 0
    decreases |ys|
  {
    if |ys| > 0 {
      HanSumNonNegative(ys[1..]);
    }
  }

  /** The yakuman kept are exactly the negative entries, in order. */
  lemma {:induction false} YakumanFilter(ys: seq<Yaku>)
    ensures forall y :: y in Yakuman(ys) <==> y in ys && y.han < 0
    ensures |Yakuman(ys)| <= |ys|
    decreases |ys|
  {
    if |ys| > 0 {
      YakumanFilter(ys[1..]);
      assert ys == [ys[0]] + ys[1..];
    }
  }

  /** A hand with a yakuman scores a positive multiple of 32000, with no fu
      or han, and lists only its yakuman. */
  lemma ScoreYakuman(a: AgariState, ys: seq<Yaku>)
    requires exists i :: 0 <= i < |ys| && ys[i].han < 0
    ensures var r := Score(a, ys);
      && r.score >= 32000 && r.score % 32000 == 0 && r.fu == 0 && r.han == 0
      && (forall y :: y in r.yaku <==> y in ys && y.han < 0)
  {
    YakumanSumSign(ys);
    YakumanFilter(ys);
  }

  /** Without yakuman every yaku is kept, with the hand's fu and the sum of
      the han, and the score is the table entry for them. */
  lemma ScoreRegular(a: AgariState, ys: seq<Yaku>)
    requires |ys| > 0 && forall i :: 0 <= i < |ys| ==> ys[i].han >= 0
    ensures var r := Score(a, ys);
      r.yaku == ys && r.fu == a.fu && r.han == HanSum(ys) && r.han >= 0
      && r.score == LimitScore(a.fu, r.han)
  {
    YakumanSumSign(ys);
    HanSumNonNegative(ys);
  }

  /** Below 6 han the score is at most 8000 and a multiple of 100; from 6
      han up it is one of the four limit values. */
  lemma LimitScoreBands(fu: int, han: nat)
    requires fu >= 0
    ensures var s := LimitScore(fu, han);
      && 0 <= s <= 32000 && s % 100 == 0
      && (han < 6 ==> s <= 8000)
      && (han >= 6 ==> s in {12000, 16000, 24000, 32000})
  {
  }

  lemma {:induction false} Pow2Monotone(m: nat, n: nat)
    requires m <= n
    ensures Pow2(m) <= Pow2(n)
    decreases n
  {
    if m < n {
      Pow2Monotone(m, n - 1);
    }
  }

  lemma RoundUp100Monotone(x: int, y: int)
    requires 0 <= x <= y
    ensures RoundUp100(x) <= RoundUp100(y)
  {
  }

  /** More han never scores less, nor does more fu. */
  lemma LimitScoreMonotone(fu: int, han: nat, fu': int, han': nat)
    requires 0 <= fu <= fu' && han <= han'
    ensures LimitScore(fu, han) <= LimitScore(fu', han')
  {
    if han' < 6 {
      RegularScore(fu, han);
      RegularScore(fu', han');
      Pow2Monotone(4 + han, 4 + han');
      MulMonotone(fu, fu', Pow2(4 + han), Pow2(4 + han'));
      RoundUp100Monotone(fu * Pow2(4 + han), fu' * Pow2(4 + han'));
    } else if han < 6 {
      RegularScore(fu, han);
    }
  }

  lemma RegularScore(fu: int, han: nat)
    requires han < 6
    ensures LimitScore(fu, han) == Cap8000(RoundUp100(fu * Pow2(4 + han)))
  {
  }

  function Cap8000(x: int): int {
    if x < 8000 then x else 8000
  }

  lemma MulMonotone(a: int, b: int, c: int, d: int)
    requires 0 <= a <= b && 0 <= c <= d
    ensures 0 <= a * c <= b * d
  {
    assert a * c <= b * c by {
      assert a * c <= b * c <==> (b - a) * c >= 0;
    }
    assert b * c <= b * d by {
      assert b * c <= b * d <==> b * (d - c) >= 0;
    }
  }

  /** Entries of the usual non-dealer table: 30 fu 1 han 1000, 30 fu 3 han
      3900, 40 fu 3 han 5200, 30 fu 4 han 7700, 40 fu 4 han and 20 fu 5 han
      the 8000 cap, and 25 fu 2 han (seven pairs) 1600. */
  lemma LimitScoreSamples()
    ensures LimitScore(30, 1) == 1000 && LimitScore(30, 3) == 3900 && LimitScore(40, 3) == 5200
    ensures LimitScore(30, 4) == 7700 && LimitScore(40, 4) == 8000 && LimitScore(20, 5) == 8000
    ensures LimitScore(25, 2) == 1600
  {
    assert Pow2(5) == 32;
    assert Pow2(6) == 64;
    assert Pow2(7) == 128;
    assert Pow2(8) == 256;
    assert Pow2(9) == 512;
  }

  // ---------------------------------------------------------------------
  // Dora.
  // ---------------------------------------------------------------------

  /** `dora_pai_num`: the kind an indicator points at. Numbers wrap 9 -> 1
      within their suit, winds North -> East, dragons Red -> White. */
  function DoraPaiNum(k: nat): nat {
    if k == 30 then 27
    else if k == 33 then 31
    else if k % 9 == 8 then k - 8
    else k + 1
  }

  /** The indicated kind is the next kind of the indicator's group, cyclically. */
  lemma DoraPaiNumCycle(k: nat)
    requires k < KINDS
    ensures k < 27 ==> DoraPaiNum(k) == k / 9 * 9 + (k % 9 + 1) % 9
    ensures 27 <= k < 31 ==> DoraPaiNum(k) == 27 + (k - 27 + 1) % 4
    ensures 31 <= k ==> DoraPaiNum(k) == 31 + (k - 31 + 1) % 3
  {
  }

  /** The indicator of kind `k`: the inverse of `DoraPaiNum`. */
  function DoraIndicator(k: nat): (r: nat)
    requires k < KINDS
    ensures r < KINDS
  {
    if k == 27 then 30
    else if k == 31 then 33
    else if k < 27 && k % 9 == 0 then k + 8
    else k - 1
  }

  /** `DoraPaiNum` permutes the 34 kinds: every kind is indicated by exactly
      one kind. */
  lemma DoraPaiNumBijective(k: nat, d: nat)
    requires k < KINDS && d < KINDS
    ensures DoraPaiNum(k) < KINDS
    ensures DoraPaiNum(DoraIndicator(k)) == k && DoraIndicator(DoraPaiNum(k)) == k
    ensures DoraPaiNum(d) == k <==> d == DoraIndicator(k)
  {
  }

  /** Indicators among `ind` pointing at kind `k`. */
  function Hits(ind: seq<Pai>, k: nat): nat {
    if |ind| == 0 then 0 else (if DoraPaiNum(ind[0].paiNum) == k then 1 else 0) + Hits(ind[1..], k)
  }

  /** Dora of a list of kinds, tile by tile. */
  function TileDora(tiles: seq<nat>, ind: seq<Pai>): nat {
    if |tiles| == 0 then 0 else Hits(ind, tiles[0]) + TileDora(tiles[1..], ind)
  }

  /** Dora of melds, meld by meld over their first `pai_len` slots (the
      `flat_map` of `get_dora_yaku`). */
  function MeldDora(ms: seq<Mentsu>, ind: seq<Pai>): nat {
    if |ms| == 0 then 0 else TileDora(MeldKinds(ms[0]), ind) + MeldDora(ms[1..], ind)
  }

  /** Occurrences of kind `k` among `tiles`. */
  function Occurrences(tiles: seq<nat>, k: nat): nat {
    if |tiles| == 0 then 0 else (if tiles[0] == k then 1 else 0) + Occurrences(tiles[1..], k)
  }

  /** Dora counted indicator by indicator: each indicator scores once per
      tile of the kind it points at. */
  function IndicatorDora(tiles: seq<nat>, ind: seq<Pai>): nat {
    if |ind| == 0 then 0 else Occurrences(tiles, DoraPaiNum(ind[0].paiNum)) + IndicatorDora(tiles, ind[1..])
  }

  lemma {:induction false} TileDoraAppend(a: seq<nat>, b: seq<nat>, ind: seq<Pai>)
    ensures TileDora(a + b, ind) == TileDora(a, ind) + TileDora(b, ind)
    decreases |a|
  {
    if |a| > 0 {
      assert (a + b)[1..] == a[1..] + b;
      TileDoraAppend(a[1..], b, ind);
    } else {
      assert a + b == b;
    }
  }

  lemma {:induction false} MeldDoraKinds(ms: seq<Mentsu>, ind: seq<Pai>)
    ensures MeldDora(ms, ind) == TileDora(Kinds(ms), ind)
    decreases |ms|
  {
    if |ms| > 0 {
      MeldDoraKinds(ms[1..], ind);
      TileDoraAppend(MeldKinds(ms[0]), Kinds(ms[1..]), ind);
    }
  }

  lemma {:induction false} TileDoraPeel(tiles: seq<nat>, ind: seq<Pai>)
    requires |ind| > 0
    ensures TileDora(tiles, ind) == Occurrences(tiles, DoraPaiNum(ind[0].paiNum)) + TileDora(tiles, ind[1..])
    decreases |tiles|
  {
    if |tiles| > 0 {
      TileDoraPeel(tiles[1..], ind);
    }
  }

  /** Counting tile by tile and indicator by indicator agree. */
  lemma {:induction false} DoraSwap(tiles: seq<nat>, ind: seq<Pai>)
    ensures TileDora(tiles, ind) == IndicatorDora(tiles, ind)
    decreases |ind|
  {
    if |ind| > 0 {
      TileDoraPeel(tiles, ind);
      DoraSwap(tiles, ind[1..]);
    } else {
      TileDoraEmpty(tiles);
    }
  }

  lemma {:induction false} TileDoraEmpty(tiles: seq<nat>)
    ensures TileDora(tiles, []) == 0
    decreases |tiles|
  {
    if |tiles| > 0 {
      TileDoraEmpty(tiles[1..]);
    }
  }

  /** The table state the yaku depend on besides the hand. */
  datatype Table = Table(riichi: bool, ippatsu: bool, dora: seq<Pai>, uradora: seq<Pai>)

  /** `get_dora_yaku`: dora of the concealed and declared melds plus the
      extracted (nuki) dora; ura-dora only after riichi. Each is listed only
      when positive. */
  function DoraYaku(t: Table, mentsu: seq<Mentsu>, fulo: seq<Mentsu>, nukidora: nat): (r: seq<Yaku>)
    ensures |r| <= 2
    ensures forall i :: 0 <= i < |r| ==> r[i].han > 0 && (r[i].name == Dora || r[i].name == Uradora)
  {
    var dora := MeldDora(mentsu + fulo, t.dora) + nukidora;
    var ura := if t.riichi then MeldDora(mentsu + fulo, t.uradora) else 0;
    (if dora > 0 then [Yaku(Dora, dora)] else []) + (if ura > 0 then [Yaku(Uradora, ura)] else [])
  }

  /** The dora entry is, per indicator, the number of hand tiles of the kind
      it points at, plus the nuki dora; the ura-dora entry likewise, after
      riichi only. */
  lemma DoraYakuCounts(t: Table, mentsu: seq<Mentsu>, fulo: seq<Mentsu>, nukidora: nat)
    ensures var r := DoraYaku(t, mentsu, fulo, nukidora);
      var tiles := Kinds(mentsu + fulo);
      && (Yaku(Dora, IndicatorDora(tiles, t.dora) + nukidora) in r <==> IndicatorDora(tiles, t.dora) + nukidora > 0)
      && (forall n :: Yaku(Dora, n) in r ==> n == IndicatorDora(tiles, t.dora) + nukidora)
      && (t.riichi ==> (Yaku(Uradora, IndicatorDora(tiles, t.uradora)) in r <==> IndicatorDora(tiles, t.uradora) > 0))
      && (!t.riichi ==> forall n :: Yaku(Uradora, n) !in r)
  {
    MeldDoraKinds(mentsu + fulo, t.dora);
    MeldDoraKinds(mentsu + fulo, t.uradora);
    DoraSwap(Kinds(mentsu + fulo), t.dora);
    DoraSwap(Kinds(mentsu + fulo), t.uradora);
    var dora := MeldDora(mentsu + fulo, t.dora) + nukidora;
    var ura := if t.riichi then MeldDora(mentsu + fulo, t.uradora) else 0;
    DoraEntries(dora, ura);
  }

  /** The two optional entries of the dora list. */
  lemma DoraEntries(dora: nat, ura: nat)
    ensures var r := (if dora > 0 then [Yaku(Dora, dora)] else []) + (if ura > 0 then [Yaku(Uradora, ura)] else []);
      && (Yaku(Dora, dora) in r <==> dora > 0)
      && (forall n :: Yaku(Dora, n) in r ==> n == dora)
      && (Yaku(Uradora, ura) in r <==> ura > 0)
      && (forall n :: Yaku(Uradora, n) in r ==> n == ura)
  {
  }

  /** `get_condition_yaku`: riichi, then ippatsu. */
  function ConditionYaku(t: Table): (r: seq<Yaku>)
    ensures Yaku(Riichi, 1) in r <==> t.riichi
    ensures Yaku(Ippatsu, 1) in r <==> t.ippatsu
    ensures forall y :: y in r ==> y == Yaku(Riichi, 1) || y == Yaku(Ippatsu, 1)
  {
    (if t.riichi then [Yaku(Riichi, 1)] else []) + (if t.ippatsu then [Yaku(Ippatsu, 1)] else [])
  }

  // ---------------------------------------------------------------------
  // The best decomposition.
  // ---------------------------------------------------------------------

  /** A decomposition the evaluator can score. */
  predicate Scorable(bakaze: nat, zikaze: nat, mentsu: seq<Mentsu>, fulo: seq<Mentsu>, v: Version) {
    && (forall i :: 0 <= i < |mentsu| ==> ConcealedIndexable(mentsu[i]))
    && (forall i :: 0 <= i < |fulo| ==> DeclaredIndexable(fulo[i]))
    && WindsIndexable(GetAgari(bakaze, zikaze, mentsu, fulo, v))
  }

  /** One decomposition scored as `get_best_agari` scores it: condition yaku,
      the yaku list, then the dora yaku. */
  function Evaluate(bakaze: nat, zikaze: nat, t: Table, mentsu: seq<Mentsu>, fulo: seq<Mentsu>, nukidora: nat, v: Version): Agari
    requires Scorable(bakaze, zikaze, mentsu, fulo, v)
  {
    var a := GetAgari(bakaze, zikaze, mentsu, fulo, v);
    Score(a, ConditionYaku(t) + YakuList(a) + DoraYaku(t, mentsu, fulo, nukidora))
  }

  /** `max_by_key` on the score: the LAST element of greatest score. */
  function LastBest(xs: seq<Agari>): (i: nat)
    requires |xs| > 0
    ensures i < |xs|
    ensures forall j :: 0 <= j < |xs| ==> xs[j].score <= xs[i].score
    ensures forall j :: i < j < |xs| ==> xs[j].score < xs[i].score
  {
    if |xs| == 1 then 0
    else
      var k := LastBest(xs[..|xs| - 1]);
      if xs[|xs| - 1].score >= xs[k].score then |xs| - 1 else k
  }

  function EvaluateAll(bakaze: nat, zikaze: nat, t: Table, ds: seq<seq<Mentsu>>, fulo: seq<Mentsu>, nukidora: nat, v: Version): (r: seq<Agari>)
    requires forall i :: 0 <= i < |ds| ==> Scorable(bakaze, zikaze, ds[i], fulo, v)
    ensures |r| == |ds|
    ensures forall i :: 0 <= i < |ds| ==> r[i] == Evaluate(bakaze, zikaze, t, ds[i], fulo, nukidora, v)
  {
    seq(|ds|, i requires 0 <= i < |ds| => Evaluate(bakaze, zikaze, t, ds[i], fulo, nukidora, v))
  }

  /** `get_best_agari`: an error when there is no decomposition, otherwise
      the score of the last decomposition of greatest score. */
  function GetBestAgari(bakaze: nat, zikaze: nat, t: Table, ds: seq<seq<Mentsu>>, fulo: seq<Mentsu>, nukidora: nat, v: Version): (r: Result<Agari>)
    requires forall i :: 0 <= i < |ds| ==> Scorable(bakaze, zikaze, ds[i], fulo, v)
    ensures r.Err? <==> |ds| == 0
  {
    if |ds| == 0 then Err("Agari tehai or yaku not found")
    else
      var xs := EvaluateAll(bakaze, zikaze, t, ds, fulo, nukidora, v);
      Ok(xs[LastBest(xs)])
  }

  /** The chosen score is that of a decomposition no other decomposition
      beats, and the last one among equals. */
  lemma GetBestAgariBest(bakaze: nat, zikaze: nat, t: Table, ds: seq<seq<Mentsu>>, fulo: seq<Mentsu>, nukidora: nat, v: Version)
    requires forall i :: 0 <= i < |ds| ==> Scorable(bakaze, zikaze, ds[i], fulo, v)
    ensures var r := GetBestAgari(bakaze, zikaze, t, ds, fulo, nukidora, v);
      r.Ok? ==>
        exists i :: 0 <= i < |ds| && r.value == Evaluate(bakaze, zikaze, t, ds[i], fulo, nukidora, v)
          && (forall j :: 0 <= j < |ds| ==> Evaluate(bakaze, zikaze, t, ds[j], fulo, nukidora, v).score <= r.value.score)
          && (forall j :: i < j < |ds| ==> Evaluate(bakaze, zikaze, t, ds[j], fulo, nukidora, v).score < r.value.score)
  {
    if |ds| > 0 {
      var xs := EvaluateAll(bakaze, zikaze, t, ds, fulo, nukidora, v);
      var i := LastBest(xs);
      forall j | 0 <= j < |ds|
        ensures Evaluate(bakaze, zikaze, t, ds[j], fulo, nukidora, v).score <= xs[i].score
        ensures i < j ==> Evaluate(bakaze, zikaze, t, ds[j], fulo, nukidora, v).score < xs[i].score
      {
        assert xs[j] == Evaluate(bakaze, zikaze, t, ds[j], fulo, nukidora, v);
      }
      assert xs[i] == Evaluate(bakaze, zikaze, t, ds[i], fulo, nukidora, v);
    }
  }
}
