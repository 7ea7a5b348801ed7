/** Melds (`Mentsu`) as the hand evaluator sees them: four tile slots, the
    number of slots in use, and the meld type. */
module Melds {

  /** Slot flag: which tile completed the hand, or who a called tile came from. */
  datatype Flag = FlagNone | FlagAgari | FlagKamicha | FlagToimen | FlagSimocha

  datatype MentsuType = Atama | Shuntsu | Koutsu | Ankan | Minkan

  datatype MentsuPai = MentsuPai(paiNum: nat, id: nat, flag: Flag)

  /** An empty slot, `MentsuPai::new(0, 0, FLAG_NONE)`. */
  const Blank: MentsuPai := MentsuPai(0, 0, FlagNone)

  /** `Mentsu::pai_list` is a fixed array of four slots. */
  type Slots = s: seq<MentsuPai> | |s| == 4 witness [Blank, Blank, Blank, Blank]

  datatype Mentsu = Mentsu(paiList: Slots, paiLen: nat, mentsuType: MentsuType)

  /** Kind of the meld's first slot, which the evaluator reads as the meld's kind. */
  function Head(m: Mentsu): nat {
    m.paiList[0].paiNum
  }

  /** The pair of kind `k`: two tiles and two blank slots. */
  function AtamaOf(k: nat): (m: Mentsu)
    ensures m.mentsuType == Atama && m.paiLen == 2 && Head(m) == k
  {
    Mentsu([MentsuPai(k, 0, FlagNone), MentsuPai(k, 0, FlagNone), Blank, Blank], 2, Atama)
  }

  /** The run starting at kind `k`. */
  function ShuntsuOf(k: nat): (m: Mentsu)
    ensures m.mentsuType == Shuntsu && m.paiLen == 3 && Head(m) == k
  {
    Mentsu([MentsuPai(k, 0, FlagNone), MentsuPai(k + 1, 0, FlagNone), MentsuPai(k + 2, 0, FlagNone), Blank], 3, Shuntsu)
  }

  /** The concealed triplet of kind `k`. */
  function KoutsuOf(k: nat): (m: Mentsu)
    ensures m.mentsuType == Koutsu && m.paiLen == 3 && Head(m) == k
  {
    Mentsu([MentsuPai(k, 0, FlagNone), MentsuPai(k, 0, FlagNone), MentsuPai(k, 0, FlagNone), Blank], 3, Koutsu)
  }

  /** The tiles a meld really holds: its first `pai_len` slots (at most four). */
  function UsedSlots(m: Mentsu): (r: seq<MentsuPai>)
    ensures |r| <= 4
    ensures m.paiLen <= 4 ==> |r| == m.paiLen
  {
    if m.paiLen <= 4 then m.paiList[..m.paiLen] else m.paiList
  }

  /** Kinds of the tiles a meld holds, slot by slot. */
  function MeldKinds(m: Mentsu): (r: seq<nat>)
    ensures |r| == |UsedSlots(m)|
    ensures forall i :: 0 <= i < |r| ==> r[i] == UsedSlots(m)[i].paiNum
  {
    seq(|UsedSlots(m)|, i requires 0 <= i < |UsedSlots(m)| => UsedSlots(m)[i].paiNum)
  }

  /** Kinds of all tiles of a list of melds, meld by meld. */
  function Kinds(d: seq<Mentsu>): seq<nat> {
    if |d| == 0 then [] else MeldKinds(d[0]) + Kinds(d[1..])
  }

  lemma {:induction false} KindsAppend(a: seq<Mentsu>, b: seq<Mentsu>)
    ensures Kinds(a + b) == Kinds(a) + Kinds(b)
  {
    if |a| == 0 {
      assert a + b == b;
    } else {
      assert (a + b)[1..] == a[1..] + b;
      KindsAppend(a[1..], b);
    }
  }

  /** The tiles of the canonical pair, run and triplet. */
  lemma CanonicalKinds(k: nat)
    ensures MeldKinds(AtamaOf(k)) == [k, k]
    ensures MeldKinds(ShuntsuOf(k)) == [k, k + 1, k + 2]
    ensures MeldKinds(KoutsuOf(k)) == [k, k, k]
  {
  }
}
