/** `get_agari`, the builder that turns one decomposition (concealed melds
    plus declared melds) into an `AgariState`: meld tallies, the counters
    the yaku read, and the fu. */
module AgariBuild {
  import opened Tiles
  import opened Melds
  import opened Machi

  /** `AgariState`. The per-suit arrays of the source are kept as one vector
      per tally, indexed by kind: `shuntsu` has 27 cells (m, p, s) and
      `koutsu` and `toitsu` have 34 (m, p, s, then the seven honours). */
  datatype AgariState = AgariState(
    fu: int, menzen: bool, tsumo: bool,
    shuntsu: seq<int>, koutsu: seq<int>, toitsu: seq<int>,
    nToitsu: int, nShuntsu: int, nKoutsu: int, nAnkou: int, nKantsu: int,
    nYaochu: int, nZihai: int,
    tanki: bool, pinfu: bool, kokushi: bool, churen: bool,
    bakaze: nat, zikaze: nat)

  predicate Shaped(a: AgariState) {
    |a.shuntsu| == 27 && |a.koutsu| == KINDS && |a.toitsu| == KINDS
  }

  /** Terminal or honour kind. */
  predicate Yaochu(num: nat) {
    num >= 27 || num % 9 == 0 || num % 9 == 8
  }

  /** The starting state: 20 fu, concealed exactly when nothing is declared,
      always a self-drawn win, all tallies zero. */
  function Initial(bakaze: nat, zikaze: nat, nFulo: nat): (a: AgariState)
    ensures Shaped(a)
    ensures a.fu == 20 && a.tsumo && (a.menzen <==> nFulo == 0) && !a.pinfu
    ensures Sum(a.shuntsu) == 0 && Sum(a.koutsu) == 0 && Sum(a.toitsu) == 0
    ensures a.nToitsu == 0 && a.nShuntsu == 0 && a.nKoutsu == 0 && a.nAnkou == 0 && a.nKantsu == 0
    ensures a.nYaochu == 0 && a.nZihai == 0 && !a.tanki && !a.kokushi && !a.churen
    ensures a.bakaze == bakaze && a.zikaze == zikaze
  {
    SumZeros(27);
    SumZeros(KINDS);
    AgariState(20, nFulo == 0, true, Zeros(27), Zeros(KINDS), Zeros(KINDS),
               0, 0, 0, 0, 0, 0, 0, false, false, false, false, bakaze, zikaze)
  }

  // ---------------------------------------------------------------------
  // Pair fu from winds and dragons.
  // ---------------------------------------------------------------------

  /** Pair fu as written: the honour kind is reduced with `num % 7` before it
      is compared with the round and seat winds (both taken `as u8`). */
  function PairWindFuAsWritten(num: nat, bakaze: nat, zikaze: nat): (r: int)
    ensures 0 <= r <= 6
  {
    (if num % 7 == bakaze % 256 then 2 else 0)
    + (if num % 7 == zikaze % 256 then 2 else 0)
    + (if num >= 31 then 2 else 0)
  }

  /** Pair fu as evidently intended: the wind index is `num - 27`. */
  function PairWindFu(num: nat, bakaze: nat, zikaze: nat): (r: int)
    requires num >= 27
    ensures 0 <= r <= 6
  {
    (if num - 27 == bakaze % 256 then 2 else 0)
    + (if num - 27 == zikaze % 256 then 2 else 0)
    + (if num >= 31 then 2 else 0)
  }

  /** A wind pair earns 2 fu for each of the round and seat wind it equals;
      a dragon pair earns exactly 2. */
  lemma PairWindFuMeaning(num: nat, bakaze: nat, zikaze: nat)
    requires 27 <= num < KINDS && bakaze < 4 && zikaze < 4
    ensures num < 31 ==> PairWindFu(num, bakaze, zikaze) == (if num == 27 + bakaze then 2 else 0) + (if num == 27 + zikaze then 2 else 0)
    ensures num >= 31 ==> PairWindFu(num, bakaze, zikaze) == 2
  {
  }

  /** As written the East pair never earns round-wind fu in the East round,
      the South pair earns it instead, and a white-dragon pair earns seat
      fu for the North seat. */
  lemma PairWindFuAsWrittenMisses()
    ensures PairWindFuAsWritten(27, 0, 1) == 0 && PairWindFu(27, 0, 1) == 2
    ensures PairWindFuAsWritten(28, 0, 1) == 2 && PairWindFu(28, 0, 1) == 2
    ensures PairWindFuAsWritten(28, 0, 2) == 2 && PairWindFu(28, 0, 2) == 0
    ensures PairWindFuAsWritten(31, 0, 3) == 4 && PairWindFu(31, 0, 3) == 2
  {
  }

  // ---------------------------------------------------------------------
  // One meld.
  // ---------------------------------------------------------------------

  /** Which reading of the source a pipeline follows: the code as written,
      or with the evident fixes of the pair-wind fu and of the winning-tile
      search applied. */
  datatype Version = AsWritten | Corrected

  /** A concealed pair: tanki fu, honour fu, the pair tally and the
      terminal count (the last test also fires for the East pair, which is
      then counted twice). */
  function AddPair(a: AgariState, m: Mentsu, v: Version): (r: AgariState)
    requires Shaped(a) && Head(m) < KINDS
    ensures Shaped(r) && SameSetting(r, a) && r.fu >= a.fu
    ensures r.nToitsu == a.nToitsu + 1 && r.toitsu == a.toitsu[Head(m) := a.toitsu[Head(m)] + 1]
    ensures r.nShuntsu == a.nShuntsu && r.nKoutsu == a.nKoutsu && r.nAnkou == a.nAnkou && r.nKantsu == a.nKantsu
    ensures r.shuntsu == a.shuntsu && r.koutsu == a.koutsu
  {
    var num := Head(m);
    var tanki := IsTanki(m);
    var honour := num >= 27;
    var windFu :=
      if !honour then 0
      else match v
        case AsWritten => PairWindFuAsWritten(num, a.bakaze, a.zikaze)
        case Corrected => PairWindFu(num, a.bakaze, a.zikaze);
    a.(nToitsu := a.nToitsu + 1,
       tanki := a.tanki || tanki,
       fu := a.fu + (if tanki then 2 else 0) + windFu,
       nZihai := a.nZihai + (if honour then 1 else 0),
       nYaochu := a.nYaochu + (if honour then 1 else 0) + (if num % 9 == 0 || num % 9 == 8 then 1 else 0),
       toitsu := a.toitsu[num := a.toitsu[num] + 1])
  }

  /** A triplet or quad of kind `num` worth `base` fu, doubled for
      terminals and honours. */
  function AddSet(a: AgariState, num: nat, base: int): (r: AgariState)
    requires Shaped(a) && num < KINDS
    ensures Shaped(r)
    ensures r.fu == a.fu + (if Yaochu(num) then 2 * base else base)
    ensures r.koutsu == a.koutsu[num := a.koutsu[num] + 1]
    ensures SameSetting(r, a) && r.shuntsu == a.shuntsu && r.toitsu == a.toitsu
    ensures r.nToitsu == a.nToitsu && r.nShuntsu == a.nShuntsu && r.nKoutsu == a.nKoutsu
    ensures r.nAnkou == a.nAnkou && r.nKantsu == a.nKantsu
  {
    var terminal := num == 0 || num == 8 || num == 9 || num == 17 || num == 18 || num == 26;
    var honour := num >= 27;
    a.(koutsu := a.koutsu[num := a.koutsu[num] + 1],
       fu := a.fu + (if honour || terminal then 2 * base else base),
       nZihai := a.nZihai + (if honour then 1 else 0),
       nYaochu := a.nYaochu + (if honour || terminal then 1 else 0))
  }

  /** Cell of the run tally for a run starting at `num` (`s[num % 9]` from
      18 on, so an honour "run" lands in the sou cells). */
  function RunCell(num: nat): (c: nat)
    ensures c < 27
    ensures num < 27 ==> c == num
  {
    if num >= 18 then 18 + num % 9 else num
  }

  /** A run that holds a terminal. */
  predicate RunYaochu(num: nat) {
    num == 18 || num == 24 || num == 9 || num == 15 || num == 0 || num == 6
  }

  /** A run starting at `num` counts towards the terminals exactly when it
      is a 1-2-3 or a 7-8-9 of a numbered suit. */
  lemma RunYaochuMeaning(num: nat)
    requires num < 27 && num % 9 < 7
    ensures RunYaochu(num) <==> Yaochu(num) || Yaochu(num + 2)
  {
  }

  function AddRun(a: AgariState, num: nat, waitFu: int): (r: AgariState)
    requires Shaped(a)
    ensures Shaped(r) && SameSetting(r, a) && r.fu == a.fu + waitFu
    ensures r.nShuntsu == a.nShuntsu + 1 && r.shuntsu == a.shuntsu[RunCell(num) := a.shuntsu[RunCell(num)] + 1]
    ensures r.nToitsu == a.nToitsu && r.nKoutsu == a.nKoutsu && r.nAnkou == a.nAnkou && r.nKantsu == a.nKantsu
    ensures r.koutsu == a.koutsu && r.toitsu == a.toitsu
  {
    var c := RunCell(num);
    a.(nShuntsu := a.nShuntsu + 1, fu := a.fu + waitFu,
       shuntsu := a.shuntsu[c := a.shuntsu[c] + 1],
       nYaochu := a.nYaochu + (if RunYaochu(num) then 1 else 0))
  }

  /** Fu for the wait of a concealed run: 2 for a closed (kanchan) and 2 for
      an edge (penchan) wait. */
  function WaitFu(m: Mentsu): (r: int)
    ensures r >= 0
  {
    (if IsKanchan(m) then 2 else 0) + (if IsPenchan(m) then 2 else 0)
  }

  /** The source indexes a count array with the meld's kind for pairs,
      triplets and quads; it panics for a kind of 34 or more. */
  predicate ConcealedIndexable(m: Mentsu) {
    (m.mentsuType == Atama || m.mentsuType == Koutsu) ==> Head(m) < KINDS
  }

  predicate DeclaredIndexable(m: Mentsu) {
    (m.mentsuType == Koutsu || m.mentsuType == Ankan || m.mentsuType == Minkan) ==> Head(m) < KINDS
  }

  /** `k` more triplets, `an` more concealed sets and `kan` more quads. */
  function Counted(a: AgariState, k: int, an: int, kan: int): (r: AgariState)
    ensures Shaped(r) == Shaped(a) && SameSetting(r, a)
    ensures r.koutsu == a.koutsu && r.shuntsu == a.shuntsu && r.toitsu == a.toitsu && r.fu == a.fu
    ensures r.nToitsu == a.nToitsu && r.nShuntsu == a.nShuntsu
  {
    a.(nKoutsu := a.nKoutsu + k, nAnkou := a.nAnkou + an, nKantsu := a.nKantsu + kan)
  }

  /** One concealed meld; quads in the concealed list are ignored. */
  function AddConcealed(a: AgariState, m: Mentsu, v: Version): (r: AgariState)
    requires Shaped(a) && ConcealedIndexable(m)
    ensures Shaped(r)
  {
    match m.mentsuType
    case Atama => AddPair(a, m, v)
    case Koutsu => AddSet(Counted(a, 1, 1, 0), Head(m), 4)
    case Shuntsu => AddRun(a, Head(m), WaitFu(m))
    case _ => a
  }

  /** One declared meld; a pair in the declared list is ignored. */
  function AddDeclared(a: AgariState, m: Mentsu): (r: AgariState)
    requires Shaped(a) && DeclaredIndexable(m)
    ensures Shaped(r)
  {
    match m.mentsuType
    case Ankan => AddSet(Counted(a, 0, 1, 1), Head(m), 16)
    case Minkan => AddSet(Counted(a, 0, 0, 1), Head(m), 8)
    case Koutsu => AddSet(Counted(a, 1, 0, 0), Head(m), 2)
    case Shuntsu => AddRun(a, Head(m), 0)
    case Atama => a
  }

  // ---------------------------------------------------------------------
  // The whole decomposition.
  // ---------------------------------------------------------------------

  function TallyConcealed(a: AgariState, ms: seq<Mentsu>, v: Version): (r: AgariState)
    requires Shaped(a) && forall i :: 0 <= i < |ms| ==> ConcealedIndexable(ms[i])
    ensures Shaped(r)
    decreases |ms|
  {
    if |ms| == 0 then a else TallyConcealed(AddConcealed(a, ms[0], v), ms[1..], v)
  }

  function TallyDeclared(a: AgariState, ms: seq<Mentsu>): (r: AgariState)
    requires Shaped(a) && forall i :: 0 <= i < |ms| ==> DeclaredIndexable(ms[i])
    ensures Shaped(r)
    decreases |ms|
  {
    if |ms| == 0 then a else TallyDeclared(AddDeclared(a, ms[0]), ms[1..])
  }

  /** Round `x` up to a multiple of 10 (`(x + 9) / 10 * 10`, with Rust's
      division truncating toward zero). */
  function RoundUp10(x: int): (r: int)
    ensures x >= 0 ==> r % 10 == 0 && x <= r < x + 10
  {
    var y := x + 9;
    (if y >= 0 then y / 10 else -((-y) / 10)) * 10
  }

  /** Fu finalisation: seven pairs score exactly 25; otherwise a concealed
      hand with no fu beyond the base is pinfu, every other self-drawn hand
      earns 2 tsumo fu, and the total is rounded up to a multiple of 10. The
      ron branch is modelled although `tsumo` is always set. */
  function Finish(a: AgariState): (r: AgariState)
    ensures r.(fu := a.fu, pinfu := a.pinfu) == a
  {
    if a.nToitsu >= 7 then a.(fu := 25)
    else
      var pinfu := a.menzen && a.fu == 20;
      var fu :=
        if a.tsumo then (if !pinfu then a.fu + 2 else a.fu)
        else if a.menzen then a.fu + 10
        else if a.fu == 20 then 30
        else a.fu;
      a.(pinfu := pinfu, fu := RoundUp10(fu))
  }

  /** `get_agari(who, mentsu, fulo)` with the seat wind already computed;
      `GetAgari(.., AsWritten)` is the source's builder. */
  function GetAgari(bakaze: nat, zikaze: nat, mentsu: seq<Mentsu>, fulo: seq<Mentsu>, v: Version): (a: AgariState)
    requires forall i :: 0 <= i < |mentsu| ==> ConcealedIndexable(mentsu[i])
    requires forall i :: 0 <= i < |fulo| ==> DeclaredIndexable(fulo[i])
    ensures Shaped(a)
  {
    Finish(TallyDeclared(TallyConcealed(Initial(bakaze, zikaze, |fulo|), mentsu, v), fulo))
  }

  // ---------------------------------------------------------------------
  // What the builder counts.
  // ---------------------------------------------------------------------

  /** Number of melds of type `t`. */
  function CountType(ms: seq<Mentsu>, t: MentsuType): nat {
    if |ms| == 0 then 0 else (if ms[0].mentsuType == t then 1 else 0) + CountType(ms[1..], t)
  }

  /** The fields the tallies never touch. */
  predicate SameSetting(a: AgariState, b: AgariState) {
    a.menzen == b.menzen && a.tsumo == b.tsumo && a.kokushi == b.kokushi && a.churen == b.churen
    && a.pinfu == b.pinfu
    && a.bakaze == b.bakaze && a.zikaze == b.zikaze
  }

  lemma SumBump(s: seq<int>, i: nat)
    requires i < |s|
    ensures Sum(s[i := s[i] + 1]) == Sum(s) + 1
  {
    SumUpdate(s, i, s[i] + 1);
  }

  /** `r` is `a` with `t` more pairs, `s` more runs, `k` more triplets, `an`
      more concealed sets and `kan` more quads, each also landing in one
      tally cell, and no less fu. */
  predicate Grew(a: AgariState, r: AgariState, t: int, s: int, k: int, an: int, kan: int) {
    && SameSetting(r, a)
    && r.nToitsu == a.nToitsu + t && r.nShuntsu == a.nShuntsu + s && r.nKoutsu == a.nKoutsu + k
    && r.nAnkou == a.nAnkou + an && r.nKantsu == a.nKantsu + kan
    && Sum(r.toitsu) == Sum(a.toitsu) + t && Sum(r.shuntsu) == Sum(a.shuntsu) + s
    && Sum(r.koutsu) == Sum(a.koutsu) + k + kan
    && r.fu >= a.fu
  }

  lemma GrewTrans(a: AgariState, b: AgariState, c: AgariState, t: int, s: int, k: int, an: int, kan: int,
                  t': int, s': int, k': int, an': int, kan': int)
    requires Grew(a, b, t, s, k, an, kan) && Grew(b, c, t', s', k', an', kan')
    ensures Grew(a, c, t + t', s + s', k + k', an + an', kan + kan')
  {
  }

  /** A set tallied on top of counters bumped by `k`, `an` and `kan`. */
  lemma SetGrew(a: AgariState, num: nat, base: int, k: int, an: int, kan: int)
    requires Shaped(a) && num < KINDS && base >= 0 && k + kan == 1
    ensures Grew(a, AddSet(Counted(a, k, an, kan), num, base), 0, 0, k, an, kan)
  {
    SumBump(a.koutsu, num);
  }

  lemma RunGrew(a: AgariState, num: nat, waitFu: int)
    requires Shaped(a) && waitFu >= 0
    ensures Grew(a, AddRun(a, num, waitFu), 0, 1, 0, 0, 0)
  {
    SumBump(a.shuntsu, RunCell(num));
  }

  lemma PairGrew(a: AgariState, m: Mentsu, v: Version)
    requires Shaped(a) && Head(m) < KINDS
    ensures Grew(a, AddPair(a, m, v), 1, 0, 0, 0, 0)
  {
    SumBump(a.toitsu, Head(m));
  }

  function IfType(m: Mentsu, t: MentsuType): nat {
    if m.mentsuType == t then 1 else 0
  }

  /** What one concealed meld adds to each counter and tally. */
  lemma AddConcealedDelta(a: AgariState, m: Mentsu, v: Version)
    requires Shaped(a) && ConcealedIndexable(m)
    ensures Grew(a, AddConcealed(a, m, v), IfType(m, Atama), IfType(m, Shuntsu), IfType(m, Koutsu), IfType(m, Koutsu), 0)
  {
    match m.mentsuType
    case Atama => PairGrew(a, m, v);
    case Koutsu =>
      SetGrew(a, Head(m), 4, 1, 1, 0);
    case Shuntsu => RunGrew(a, Head(m), WaitFu(m));
    case _ =>
  }

  /** A declared set: an open triplet, a closed quad or an open quad. */
  lemma DeclaredSetDelta(a: AgariState, m: Mentsu)
    requires Shaped(a) && DeclaredIndexable(m)
    requires m.mentsuType == Koutsu || m.mentsuType == Ankan || m.mentsuType == Minkan
    ensures Grew(a, AddDeclared(a, m), 0, 0, IfType(m, Koutsu), IfType(m, Ankan),
                 IfType(m, Ankan) + IfType(m, Minkan))
  {
    if m.mentsuType == Ankan {
      SetGrew(a, Head(m), 16, 0, 1, 1);
    } else if m.mentsuType == Minkan {
      SetGrew(a, Head(m), 8, 0, 0, 1);
    } else {
      SetGrew(a, Head(m), 2, 1, 0, 0);
    }
  }

  /** What one declared meld adds to each counter and tally. */
  lemma AddDeclaredDelta(a: AgariState, m: Mentsu)
    requires Shaped(a) && DeclaredIndexable(m)
    ensures Grew(a, AddDeclared(a, m), 0, IfType(m, Shuntsu), IfType(m, Koutsu), IfType(m, Ankan),
                 IfType(m, Ankan) + IfType(m, Minkan))
  {
    if m.mentsuType == Shuntsu {
      RunGrew(a, Head(m), 0);
    } else if m.mentsuType != Atama {
      DeclaredSetDelta(a, m);
    }
  }

  /** The concealed melds add one to the matching counter per meld, and one
      tally cell per pair, run and triplet. */
  lemma {:induction false} TallyConcealedCounts(a: AgariState, ms: seq<Mentsu>, v: Version)
    requires Shaped(a) && forall i :: 0 <= i < |ms| ==> ConcealedIndexable(ms[i])
    ensures Grew(a, TallyConcealed(a, ms, v), CountType(ms, Atama), CountType(ms, Shuntsu),
                 CountType(ms, Koutsu), CountType(ms, Koutsu), 0)
    decreases |ms|
  {
    if |ms| > 0 {
      var b := AddConcealed(a, ms[0], v);
      AddConcealedDelta(a, ms[0], v);
      TallyConcealedCounts(b, ms[1..], v);
      GrewTrans(a, b, TallyConcealed(b, ms[1..], v),
                IfType(ms[0], Atama), IfType(ms[0], Shuntsu), IfType(ms[0], Koutsu), IfType(ms[0], Koutsu), 0,
                CountType(ms[1..], Atama), CountType(ms[1..], Shuntsu), CountType(ms[1..], Koutsu), CountType(ms[1..], Koutsu), 0);
    }
  }

  /** The declared melds: runs, open triplets, closed and open quads. */
  lemma {:induction false} TallyDeclaredCounts(a: AgariState, ms: seq<Mentsu>)
    requires Shaped(a) && forall i :: 0 <= i < |ms| ==> DeclaredIndexable(ms[i])
    ensures Grew(a, TallyDeclared(a, ms), 0, CountType(ms, Shuntsu), CountType(ms, Koutsu), CountType(ms, Ankan),
                 CountType(ms, Ankan) + CountType(ms, Minkan))
    decreases |ms|
  {
    if |ms| > 0 {
      var b := AddDeclared(a, ms[0]);
      AddDeclaredDelta(a, ms[0]);
      TallyDeclaredCounts(b, ms[1..]);
      GrewTrans(a, b, TallyDeclared(b, ms[1..]),
                0, IfType(ms[0], Shuntsu), IfType(ms[0], Koutsu), IfType(ms[0], Ankan), IfType(ms[0], Ankan) + IfType(ms[0], Minkan),
                0, CountType(ms[1..], Shuntsu), CountType(ms[1..], Koutsu), CountType(ms[1..], Ankan),
                CountType(ms[1..], Ankan) + CountType(ms[1..], Minkan));
    }
  }

  /** Number of melds whose type is in `ts` and whose kind is an honour. */
  function CountHonours(ms: seq<Mentsu>, ts: set<MentsuType>): nat {
    if |ms| == 0 then 0 else HonourIn(ms[0], ts) + CountHonours(ms[1..], ts)
  }

  function HonourIn(m: Mentsu, ts: set<MentsuType>): nat {
    if m.mentsuType in ts && Head(m) >= 27 then 1 else 0
  }

  /** A pair flagged as the winning wait. */
  predicate TankiPair(m: Mentsu) {
    m.mentsuType == Atama && IsTanki(m)
  }

  lemma ConcealedHonourStep(a: AgariState, m: Mentsu, v: Version)
    requires Shaped(a) && ConcealedIndexable(m)
    ensures var r := AddConcealed(a, m, v);
      r.nZihai == a.nZihai + HonourIn(m, {Atama, Koutsu}) && (r.tanki <==> a.tanki || TankiPair(m))
  {
    if m.mentsuType == Atama {
      PairHonour(a, m, v);
    } else if m.mentsuType == Koutsu {
      var c := Counted(a, 1, 1, 0);
      assert AddConcealed(a, m, v) == AddSet(c, Head(m), 4);
      assert c.nZihai == a.nZihai && c.tanki == a.tanki;
    } else if m.mentsuType == Shuntsu {
      assert AddConcealed(a, m, v) == AddRun(a, Head(m), WaitFu(m));
    } else {
      assert AddConcealed(a, m, v) == a;
    }
  }

  lemma PairHonour(a: AgariState, m: Mentsu, v: Version)
    requires Shaped(a) && Head(m) < KINDS
    ensures var r := AddPair(a, m, v);
      r.nZihai == a.nZihai + (if Head(m) >= 27 then 1 else 0) && r.tanki == (a.tanki || IsTanki(m))
  {
  }

  lemma DeclaredHonourStep(a: AgariState, m: Mentsu)
    requires Shaped(a) && DeclaredIndexable(m)
    ensures var r := AddDeclared(a, m);
      r.nZihai == a.nZihai + HonourIn(m, {Koutsu, Ankan, Minkan}) && r.tanki == a.tanki
  {
    match m.mentsuType
    case Ankan => DeclaredSetHonour(a, m, 0, 1, 1, 16);
    case Minkan => DeclaredSetHonour(a, m, 0, 0, 1, 8);
    case Koutsu => DeclaredSetHonour(a, m, 1, 0, 0, 2);
    case Shuntsu => assert AddDeclared(a, m) == AddRun(a, Head(m), 0);
    case Atama =>
  }

  /** A declared set counts its honour kind and leaves the wait flag. */
  lemma DeclaredSetHonour(a: AgariState, m: Mentsu, k: int, an: int, kan: int, base: int)
    requires Shaped(a) && Head(m) < KINDS
    requires m.mentsuType in {Koutsu, Ankan, Minkan}
    requires AddDeclared(a, m) == AddSet(Counted(a, k, an, kan), Head(m), base)
    ensures var r := AddDeclared(a, m);
      r.nZihai == a.nZihai + HonourIn(m, {Koutsu, Ankan, Minkan}) && r.tanki == a.tanki
  {
    var c := Counted(a, k, an, kan);
    assert c.nZihai == a.nZihai && c.tanki == a.tanki;
    assert HonourIn(m, {Koutsu, Ankan, Minkan}) == (if Head(m) >= 27 then 1 else 0);
  }

  /** Some pair of the list is completed on a single (tanki) wait. */
  predicate HasTankiPair(ms: seq<Mentsu>) {
    exists i :: 0 <= i < |ms| && TankiPair(ms[i])
  }

  /** The concealed melds count one honour per honour pair or triplet, and
      set the single-wait flag exactly for a pair flagged as the wait. */
  lemma {:induction false} TallyConcealedHonours(a: AgariState, ms: seq<Mentsu>, v: Version)
    requires Shaped(a) && forall i :: 0 <= i < |ms| ==> ConcealedIndexable(ms[i])
    ensures var r := TallyConcealed(a, ms, v);
      && r.nZihai == a.nZihai + CountHonours(ms, {Atama, Koutsu})
      && (r.tanki <==> a.tanki || HasTankiPair(ms))
    decreases |ms|
  {
    if |ms| > 0 {
      var b := AddConcealed(a, ms[0], v);
      ConcealedHonourStep(a, ms[0], v);
      TallyConcealedHonours(b, ms[1..], v);
      if HasTankiPair(ms[1..]) {
        var i :| 0 <= i < |ms[1..]| && TankiPair(ms[1..][i]);
        assert TankiPair(ms[i + 1]);
      }
      if HasTankiPair(ms) && !TankiPair(ms[0]) {
        var i :| 0 <= i < |ms| && TankiPair(ms[i]);
        assert TankiPair(ms[1..][i - 1]);
      }
    }
  }

  /** The declared melds count one honour per honour triplet or quad and
      never set the single-wait flag. */
  lemma {:induction false} TallyDeclaredHonours(a: AgariState, ms: seq<Mentsu>)
    requires Shaped(a) && forall i :: 0 <= i < |ms| ==> DeclaredIndexable(ms[i])
    ensures var r := TallyDeclared(a, ms);
      r.nZihai == a.nZihai + CountHonours(ms, {Koutsu, Ankan, Minkan}) && r.tanki == a.tanki
    decreases |ms|
  {
    if |ms| > 0 {
      DeclaredHonourStep(a, ms[0]);
      TallyDeclaredHonours(AddDeclared(a, ms[0]), ms[1..]);
    }
  }

  /** The counters of `get_agari` against an independent count of meld
      types: pairs; runs; concealed and open triplets; concealed
      triplets and closed quads; quads; honour pairs, triplets and quads.
      Every pair, run and triplet or quad lands in exactly one tally cell.
      The single-wait flag is set exactly when a concealed pair is the
      wait. The hand is concealed exactly when nothing is declared, and a
      self-drawn win. */
  lemma GetAgariCounts(bakaze: nat, zikaze: nat, mentsu: seq<Mentsu>, fulo: seq<Mentsu>, v: Version)
    requires forall i :: 0 <= i < |mentsu| ==> ConcealedIndexable(mentsu[i])
    requires forall i :: 0 <= i < |fulo| ==> DeclaredIndexable(fulo[i])
    ensures var a := GetAgari(bakaze, zikaze, mentsu, fulo, v);
      && a.menzen == (|fulo| == 0) && a.tsumo && !a.kokushi && !a.churen
      && a.bakaze == bakaze && a.zikaze == zikaze
      && a.nToitsu == CountType(mentsu, Atama)
      && a.nShuntsu == CountType(mentsu, Shuntsu) + CountType(fulo, Shuntsu)
      && a.nKoutsu == CountType(mentsu, Koutsu) + CountType(fulo, Koutsu)
      && a.nAnkou == CountType(mentsu, Koutsu) + CountType(fulo, Ankan)
      && a.nKantsu == CountType(fulo, Ankan) + CountType(fulo, Minkan)
      && a.nZihai == CountHonours(mentsu, {Atama, Koutsu}) + CountHonours(fulo, {Koutsu, Ankan, Minkan})
      && (a.tanki <==> HasTankiPair(mentsu))
      && Sum(a.toitsu) == a.nToitsu
      && Sum(a.shuntsu) == a.nShuntsu
      && Sum(a.koutsu) == a.nKoutsu + a.nKantsu
  {
    var a0 := Initial(bakaze, zikaze, |fulo|);
    SumZeros(27);
    SumZeros(KINDS);
    var t1 := TallyConcealed(a0, mentsu, v);
    TallyConcealedCounts(a0, mentsu, v);
    TallyDeclaredCounts(t1, fulo);
    TallyConcealedHonours(a0, mentsu, v);
    TallyDeclaredHonours(t1, fulo);
  }

  /** The tallied fu never drops below the base 20. */
  lemma TalliedFu(bakaze: nat, zikaze: nat, mentsu: seq<Mentsu>, fulo: seq<Mentsu>, v: Version)
    requires forall i :: 0 <= i < |mentsu| ==> ConcealedIndexable(mentsu[i])
    requires forall i :: 0 <= i < |fulo| ==> DeclaredIndexable(fulo[i])
    ensures var t := TallyDeclared(TallyConcealed(Initial(bakaze, zikaze, |fulo|), mentsu, v), fulo);
      t.fu >= 20 && t.menzen == (|fulo| == 0) && t.tsumo && !t.pinfu
  {
    TallyKeepsSetting(Initial(bakaze, zikaze, |fulo|), mentsu, fulo, v);
  }

  /** Tallying only adds fu and keeps the round, seat and flags. */
  lemma TallyKeepsSetting(a: AgariState, mentsu: seq<Mentsu>, fulo: seq<Mentsu>, v: Version)
    requires Shaped(a)
    requires forall i :: 0 <= i < |mentsu| ==> ConcealedIndexable(mentsu[i])
    requires forall i :: 0 <= i < |fulo| ==> DeclaredIndexable(fulo[i])
    ensures var t := TallyDeclared(TallyConcealed(a, mentsu, v), fulo);
      t.fu >= a.fu && SameSetting(t, a)
  {
    var t1 := TallyConcealed(a, mentsu, v);
    TallyConcealedCounts(a, mentsu, v);
    TallyDeclaredCounts(t1, fulo);
  }

  /** Fu finalisation of a self-drawn hand with at least the base fu. */
  lemma FinishFu(t: AgariState)
    requires t.fu >= 20 && t.tsumo
    ensures var a := Finish(t);
      && (t.nToitsu >= 7 ==> a.fu == 25 && a.pinfu == t.pinfu)
      && (t.nToitsu < 7 ==>
            && a.fu % 10 == 0
            && (a.pinfu <==> t.menzen && t.fu == 20)
            && (a.pinfu ==> a.fu == 20)
            && (!a.pinfu ==> a.fu >= 30 && t.fu + 2 <= a.fu < t.fu + 12))
  {
  }

  /** Fu of the finished state: seven pairs score 25; any other hand is a
      multiple of 10 and is pinfu exactly when concealed with no fu beyond
      the base 20, in which case it scores exactly 20 and otherwise at
      least 30, within 10 of the tallied fu plus the 2 tsumo fu. */
  lemma GetAgariFu(bakaze: nat, zikaze: nat, mentsu: seq<Mentsu>, fulo: seq<Mentsu>, v: Version)
    requires forall i :: 0 <= i < |mentsu| ==> ConcealedIndexable(mentsu[i])
    requires forall i :: 0 <= i < |fulo| ==> DeclaredIndexable(fulo[i])
    ensures var t := TallyDeclared(TallyConcealed(Initial(bakaze, zikaze, |fulo|), mentsu, v), fulo);
      var a := GetAgari(bakaze, zikaze, mentsu, fulo, v);
      && t.fu >= 20
      && (a.nToitsu >= 7 ==> a.fu == 25 && !a.pinfu)
      && (a.nToitsu < 7 ==>
            && a.fu % 10 == 0
            && (a.pinfu <==> |fulo| == 0 && t.fu == 20)
            && (a.pinfu ==> a.fu == 20)
            && (!a.pinfu ==> a.fu >= 30 && t.fu + 2 <= a.fu < t.fu + 12))
  {
    TalliedFu(bakaze, zikaze, mentsu, fulo, v);
    FinishFu(TallyDeclared(TallyConcealed(Initial(bakaze, zikaze, |fulo|), mentsu, v), fulo));
  }

  /** The terminal test after the honour branch also fires for the East
      pair (27 % 9 == 0), so an East pair counts twice. */
  lemma EastPairCountedTwice(v: Version)
    ensures GetAgari(0, 0, [AtamaOf(27)], [], v).nYaochu == 2
    ensures GetAgari(0, 0, [AtamaOf(28)], [], v).nYaochu == 1
  {
    var a0 := Initial(0, 0, 0);
    var e := AddPair(a0, AtamaOf(27), v);
    var s := AddPair(a0, AtamaOf(28), v);
    assert e.nYaochu == 2 && s.nYaochu == 1;
    assert TallyConcealed(a0, [AtamaOf(27)], v) == e;
    assert TallyConcealed(a0, [AtamaOf(28)], v) == s;
  }

  // ---------------------------------------------------------------------
  // Terminals and honours; fu-free melds.
  // ---------------------------------------------------------------------

  /** A concealed meld as the enumeration produces it: a pair or triplet of
      a real kind, or a run of three consecutive tiles of one numbered suit. */
  predicate ConcealedShape(m: Mentsu) {
    match m.mentsuType
    case Atama => Head(m) < KINDS
    case Koutsu => Head(m) < KINDS
    case Shuntsu => Head(m) < 27 && Head(m) % 9 < 7
    case _ => false
  }

  /** A declared meld: a run, a triplet or a quad. */
  predicate DeclaredShape(m: Mentsu) {
    match m.mentsuType
    case Shuntsu => Head(m) < 27 && Head(m) % 9 < 7
    case Atama => false
    case _ => Head(m) < KINDS
  }

  /** Every tile of the meld is a simple: a 2 to 8 of a numbered suit. */
  predicate Simple(m: Mentsu) {
    if m.mentsuType == Shuntsu then !Yaochu(Head(m)) && !Yaochu(Head(m) + 2)
    else !Yaochu(Head(m))
  }

  lemma ConcealedYaochuStep(a: AgariState, m: Mentsu, v: Version)
    requires Shaped(a) && ConcealedIndexable(m) && ConcealedShape(m)
    ensures var r := AddConcealed(a, m, v);
      r.nYaochu >= a.nYaochu && (r.nYaochu == a.nYaochu <==> Simple(m))
  {
    if m.mentsuType == Shuntsu {
      RunYaochuMeaning(Head(m));
    }
  }

  lemma DeclaredYaochuStep(a: AgariState, m: Mentsu)
    requires Shaped(a) && DeclaredIndexable(m) && DeclaredShape(m)
    ensures var r := AddDeclared(a, m);
      r.nYaochu >= a.nYaochu && (r.nYaochu == a.nYaochu <==> Simple(m))
  {
    if m.mentsuType == Shuntsu {
      RunYaochuMeaning(Head(m));
    }
  }

  lemma {:induction false} TallyConcealedYaochu(a: AgariState, ms: seq<Mentsu>, v: Version)
    requires Shaped(a) && forall i :: 0 <= i < |ms| ==> ConcealedIndexable(ms[i]) && ConcealedShape(ms[i])
    ensures var r := TallyConcealed(a, ms, v);
      r.nYaochu >= a.nYaochu && (r.nYaochu == a.nYaochu <==> forall i :: 0 <= i < |ms| ==> Simple(ms[i]))
    decreases |ms|
  {
    if |ms| > 0 {
      ConcealedYaochuStep(a, ms[0], v);
      TallyConcealedYaochu(AddConcealed(a, ms[0], v), ms[1..], v);
      if forall i :: 1 <= i < |ms| ==> Simple(ms[i]) {
        assert forall i :: 0 <= i < |ms| - 1 ==> Simple(ms[1..][i]);
      } else {
        var i :| 1 <= i < |ms| && !Simple(ms[i]);
        assert !Simple(ms[1..][i - 1]);
      }
    }
  }

  lemma {:induction false} TallyDeclaredYaochu(a: AgariState, ms: seq<Mentsu>)
    requires Shaped(a) && forall i :: 0 <= i < |ms| ==> DeclaredIndexable(ms[i]) && DeclaredShape(ms[i])
    ensures var r := TallyDeclared(a, ms);
      r.nYaochu >= a.nYaochu && (r.nYaochu == a.nYaochu <==> forall i :: 0 <= i < |ms| ==> Simple(ms[i]))
    decreases |ms|
  {
    if |ms| > 0 {
      DeclaredYaochuStep(a, ms[0]);
      TallyDeclaredYaochu(AddDeclared(a, ms[0]), ms[1..]);
      if forall i :: 1 <= i < |ms| ==> Simple(ms[i]) {
        assert forall i :: 0 <= i < |ms| - 1 ==> Simple(ms[1..][i]);
      } else {
        var i :| 1 <= i < |ms| && !Simple(ms[i]);
        assert !Simple(ms[1..][i - 1]);
      }
    }
  }

  /** The builder counts no terminal or honour exactly when every meld,
      concealed or declared, consists of simples. */
  lemma NoYaochuIffSimple(bakaze: nat, zikaze: nat, mentsu: seq<Mentsu>, fulo: seq<Mentsu>, v: Version)
    requires forall i :: 0 <= i < |mentsu| ==> ConcealedIndexable(mentsu[i]) && ConcealedShape(mentsu[i])
    requires forall i :: 0 <= i < |fulo| ==> DeclaredIndexable(fulo[i]) && DeclaredShape(fulo[i])
    ensures GetAgari(bakaze, zikaze, mentsu, fulo, v).nYaochu == 0 <==>
      (forall i :: 0 <= i < |mentsu| ==> Simple(mentsu[i])) && (forall i :: 0 <= i < |fulo| ==> Simple(fulo[i]))
  {
    var a0 := Initial(bakaze, zikaze, |fulo|);
    TallyConcealedYaochu(a0, mentsu, v);
    TallyDeclaredYaochu(TallyConcealed(a0, mentsu, v), fulo);
  }

  /** Honour kind `k` matches wind `w`: as written `k % 7` is compared with
      the wind, as intended `k - 27`. */
  predicate WindMatch(k: nat, v: Version, w: nat) {
    match v
    case AsWritten => k % 7 == w % 256
    case Corrected => k - 27 == w % 256
  }

  /** A pair that earns fu for its kind: a dragon, or an honour matching the
      round or seat wind. */
  predicate ValuePair(k: nat, v: Version, bakaze: nat, zikaze: nat) {
    k >= 31 || (k >= 27 && (WindMatch(k, v, bakaze) || WindMatch(k, v, zikaze)))
  }

  /** A concealed meld that adds no fu: a run completed on a two-sided wait,
      or a pair that is neither a value pair nor a single wait. */
  predicate FuFree(m: Mentsu, v: Version, bakaze: nat, zikaze: nat) {
    match m.mentsuType
    case Shuntsu => !IsKanchan(m) && !IsPenchan(m)
    case Atama => !IsTanki(m) && !ValuePair(Head(m), v, bakaze, zikaze)
    case _ => false
  }

  lemma ConcealedFuStep(a: AgariState, m: Mentsu, v: Version)
    requires Shaped(a) && ConcealedIndexable(m) && ConcealedShape(m)
    ensures var r := AddConcealed(a, m, v);
      r.fu >= a.fu && (r.fu == a.fu <==> FuFree(m, v, a.bakaze, a.zikaze))
  {
  }

  lemma {:induction false} TallyConcealedFu(a: AgariState, ms: seq<Mentsu>, v: Version)
    requires Shaped(a) && forall i :: 0 <= i < |ms| ==> ConcealedIndexable(ms[i]) && ConcealedShape(ms[i])
    ensures var r := TallyConcealed(a, ms, v);
      r.fu >= a.fu && (r.fu == a.fu <==> forall i :: 0 <= i < |ms| ==> FuFree(ms[i], v, a.bakaze, a.zikaze))
    decreases |ms|
  {
    if |ms| > 0 {
      var b := AddConcealed(a, ms[0], v);
      ConcealedFuStep(a, ms[0], v);
      AddConcealedDelta(a, ms[0], v);
      TallyConcealedFu(b, ms[1..], v);
      if forall i :: 1 <= i < |ms| ==> FuFree(ms[i], v, a.bakaze, a.zikaze) {
        assert forall i :: 0 <= i < |ms| - 1 ==> FuFree(ms[1..][i], v, b.bakaze, b.zikaze);
      } else {
        var i :| 1 <= i < |ms| && !FuFree(ms[i], v, a.bakaze, a.zikaze);
        assert !FuFree(ms[1..][i - 1], v, b.bakaze, b.zikaze);
      }
    }
  }

  /** Pinfu as the builder decides it: no declared melds, fewer than seven
      pairs, and every concealed meld fu-free (so no triplet, no closed or
      edge wait, no single wait, no value pair). */
  lemma PinfuMeaning(bakaze: nat, zikaze: nat, mentsu: seq<Mentsu>, fulo: seq<Mentsu>, v: Version)
    requires forall i :: 0 <= i < |mentsu| ==> ConcealedIndexable(mentsu[i]) && ConcealedShape(mentsu[i])
    requires forall i :: 0 <= i < |fulo| ==> DeclaredIndexable(fulo[i]) && DeclaredShape(fulo[i])
    ensures GetAgari(bakaze, zikaze, mentsu, fulo, v).pinfu <==>
      |fulo| == 0 && CountType(mentsu, Atama) < 7 && forall i :: 0 <= i < |mentsu| ==> FuFree(mentsu[i], v, bakaze, zikaze)
  {
    var a0 := Initial(bakaze, zikaze, |fulo|);
    var t1 := TallyConcealed(a0, mentsu, v);
    var t := TallyDeclared(t1, fulo);
    TallyConcealedFu(a0, mentsu, v);
    GetAgariFu(bakaze, zikaze, mentsu, fulo, v);
    GetAgariCounts(bakaze, zikaze, mentsu, fulo, v);
    var a := GetAgari(bakaze, zikaze, mentsu, fulo, v);
    if |fulo| == 0 {
      assert t == t1;
      assert a.pinfu <==> a.nToitsu < 7 && t1.fu == 20;
    } else {
      assert !a.pinfu;
    }
  }
}
