/** The turn state of a table: players' hands, discards and cursors into the
    wall, the dealer-relative seat wind, the deal, the discard step, the
    self-drawn win and the action guard. */
module GameProcess {
  import opened Wrappers
  import opened Tiles
  import opened Melds
  import Shanten
  import Enumerate
  import Machi
  import AgariBuild
  import Yaku

  const DORA_START: nat := 0
  const URADORA_START: nat := 5

  /** Tiles in a hand besides the drawn one. */
  const HAND: nat := 13

  /** Points every player starts with. */
  const START_SCORE: int := 25000

  /** The cursor of the first player's deal. */
  const FIRST_CURSOL: nat := 14

  /** `PlayerT::tehai`, a fixed array of 13 tiles. */
  type Tehai = s: seq<Pai> | |s| == HAND witness DefaultHand()

  function DefaultHand(): (r: seq<Pai>)
    ensures |r| == HAND
  {
    seq(HAND, _ => DefaultPai)
  }

  datatype Player = Player(
    score: int, cursol: nat,
    tehai: Tehai, tehaiLen: nat, tsumohai: Pai, isTsumo: bool,
    kawahai: seq<Pai>, kawahaiLen: nat,
    isRiichi: bool, isIppatsu: bool)

  /** `GameStateT`. The wall `taku` is a flat sequence whose first 32 tiles
      are its first segment `n1`. */
  datatype GameState = GameState(
    playerLen: nat, players: seq<Player>, teban: nat, oya: nat, bakaze: nat,
    takuCursol: nat, isNonDuplicate: bool, doraLen: nat, uradoraLen: nat,
    taku: seq<Pai>)

  /** `create`: record the player count and give each seated player the
      starting score (the title is not used); `None` where a seat past the
      player array would be written. */
  function Create(g: GameState, playerLen: nat): (r: Option<GameState>)
    ensures r.Some? <==> playerLen <= |g.players|
    ensures r.Some? ==>
      && r.value.playerLen == playerLen
      && |r.value.players| == |g.players|
      && (forall i :: 0 <= i < playerLen ==> r.value.players[i] == g.players[i].(score := START_SCORE))
      && (forall i :: playerLen <= i < |g.players| ==> r.value.players[i] == g.players[i])
      && r.value.(playerLen := g.playerLen, players := g.players) == g
  {
    if playerLen > |g.players| then None
    else
      var ps := seq(|g.players|, i requires 0 <= i < |g.players| =>
        if i < playerLen then g.players[i].(score := START_SCORE) else g.players[i]);
      Some(g.(playerLen := playerLen, players := ps))
  }

  /** `next_cursol`: the shared cursor in non-duplicate play, otherwise the
      current player's own. */
  function NextCursol(g: GameState): (r: Option<GameState>)
    ensures r.Some? <==> g.isNonDuplicate || g.teban < |g.players|
    ensures r.Some? && g.isNonDuplicate ==> r.value == g.(takuCursol := g.takuCursol + 1)
    ensures r.Some? && !g.isNonDuplicate ==>
      r.value == g.(players := g.players[g.teban := g.players[g.teban].(cursol := g.players[g.teban].cursol + 1)])
  {
    if g.isNonDuplicate then Some(g.(takuCursol := g.takuCursol + 1))
    else if g.teban < |g.players| then
      var p := g.players[g.teban];
      Some(g.(players := g.players[g.teban := p.(cursol := p.cursol + 1)]))
    else None
  }

  /** `get_zikaze`: the seat of `who` counted from the dealer, wrapping once
      by the player count; the `i32` difference is cast to `u32`. */
  function GetZikaze(g: GameState, who: nat): (r: nat)
  {
    var diff := who - g.oya;
    if diff < 0 then ToU32(diff + g.playerLen) else ToU32(diff)
  }

  /** `as u32` on an `i32`: two's complement reinterpretation. */
  function ToU32(x: int): (r: nat)
    ensures r < 0x1_0000_0000
    ensures 0 <= x < 0x1_0000_0000 ==> r == x
  {
    x % 0x1_0000_0000
  }

  lemma ModBelow(x: int, n: int)
    requires 0 <= x < n
    ensures x % n == x
  {
  }

  lemma ModNeg(x: int, n: int)
    requires -n <= x < 0
    ensures x % n == x + n
  {
    ModBelow(x + n, n);
    assert (x + n) % n == x % n;
  }

  lemma ModSelf(n: int)
    requires 0 < n
    ensures n % n == 0
  {
  }

  /** For seated players the seat wind is the distance from the dealer,
      modulo the player count: the dealer is East (0). */
  lemma ZikazeIsSeatFromDealer(g: GameState, who: nat)
    requires who < g.playerLen && g.oya < g.playerLen && g.playerLen < 0x8000_0000
    ensures GetZikaze(g, who) == (who - g.oya) % g.playerLen
    ensures GetZikaze(g, who) < g.playerLen
    ensures GetZikaze(g, g.oya) == 0
  {
    var diff := who - g.oya;
    if diff < 0 {
      ModNeg(diff, g.playerLen);
    } else {
      ModBelow(diff, g.playerLen);
    }
    ModBelow(0, g.playerLen);
  }

  /** Successive seats get successive winds. */
  lemma ZikazeNextSeat(g: GameState, who: nat)
    requires who + 1 < g.playerLen && g.oya < g.playerLen && g.playerLen < 0x8000_0000
    ensures GetZikaze(g, who + 1) == (GetZikaze(g, who) + 1) % g.playerLen
  {
    var n := g.playerLen;
    var z := who - g.oya;
    if z < -1 {
      assert GetZikaze(g, who) == z + n;
      assert GetZikaze(g, who + 1) == z + 1 + n;
      ModBelow(z + n + 1, n);
    } else if z == -1 {
      assert GetZikaze(g, who) == n - 1;
      assert GetZikaze(g, who + 1) == 0;
      ModSelf(n);
    } else {
      assert GetZikaze(g, who) == z;
      assert GetZikaze(g, who + 1) == z + 1;
      ModBelow(z + 1, n);
    }
  }

  /** `TakuT::get_range`, which is not part of this model: assumed to give the
      tiles `lo .. hi` exactly when they lie within the wall. */
  function GetRange(taku: seq<Pai>, lo: nat, hi: nat): (r: Option<seq<Pai>>)
    ensures r.Some? <==> lo <= hi <= |taku|
    ensures r.Some? ==> r.value == taku[lo..hi]
  {
    if lo <= hi <= |taku| then Some(taku[lo..hi]) else None
  }

  /** Where seat `idx`'s own cursor starts: 14, then 31 tiles apart for the
      first two seats and 30 after. */
  function SeatCursol(idx: nat): nat {
    FIRST_CURSOL + idx * (if idx < 2 then 31 else 30)
  }

  /** The hand dealt from cursor `c`: the sorted 13 tiles there, or the old
      hand when the range is not available. */
  function DealtHand(p: Player, taku: seq<Pai>, c: nat): (r: Player)
    ensures c + HAND <= |taku| ==>
      r.tehaiLen == HAND && Sorted(r.tehai) && multiset(r.tehai) == multiset(taku[c..c + HAND])
    ensures c + HAND > |taku| ==> r.tehai == p.tehai && r.tehaiLen == p.tehaiLen
    ensures r.(tehai := p.tehai, tehaiLen := p.tehaiLen) == p
  {
    match GetRange(taku, c, c + HAND)
    case Some(v) => p.(tehai := Sort(v), tehaiLen := HAND)
    case None => p
  }

  /** One iteration of the deal loop of `start` for seat `idx`. */
  function DealSeat(g: GameState, idx: nat): (r: GameState)
    requires idx < |g.players|
    ensures |r.players| == |g.players|
    ensures r.(players := g.players, takuCursol := g.takuCursol) == g
  {
    var own := SeatCursol(idx);
    var p := g.players[idx].(cursol := own);
    if g.isNonDuplicate then
      var c := g.takuCursol;
      g.(players := g.players[idx := DealtHand(p, g.taku, c)], takuCursol := c + HAND)
    else
      g.(players := g.players[idx := DealtHand(p, g.taku, own).(cursol := own + HAND)])
  }

  /** The deal loop for seats `idx` .. `playerLen - 1`. */
  function DealFrom(g: GameState, idx: nat): (r: Option<GameState>)
    requires idx <= g.playerLen
    ensures r.Some? <==> idx == g.playerLen || g.playerLen <= |g.players|
    decreases g.playerLen - idx
  {
    if idx == g.playerLen then Some(g)
    else if idx >= |g.players| then None
    else DealFrom(DealSeat(g, idx), idx + 1)
  }

  /** `start`: reset the shared cursor to 14 and the dora counts, then deal
      every seat; `None` where a seat past the player array would be read. */
  function Start(g: GameState): Option<GameState> {
    DealFrom(g.(takuCursol := FIRST_CURSOL, doraLen := 1, uradoraLen := 0), 0)
  }

  /** What one seat of the deal leaves behind, in both cursor modes. */
  predicate Dealt(g: GameState, r: GameState, idx: nat)
    requires idx < |g.players| && idx < |r.players|
  {
    SeatDealt(g.players[idx], r.players[idx], g.taku, g.isNonDuplicate, idx)
  }

  /** Seat `idx` after the deal: its cursor, and 13 sorted tiles from its
      range of the wall when that range is available. */
  predicate SeatDealt(p: Player, q: Player, taku: seq<Pai>, nonDuplicate: bool, idx: nat) {
    var own := SeatCursol(idx);
    var c := if nonDuplicate then FIRST_CURSOL + HAND * idx else own;
    && q.cursol == (if nonDuplicate then own else own + HAND)
    && (c + HAND <= |taku| ==>
          q.tehaiLen == HAND && Sorted(q.tehai) && multiset(q.tehai) == multiset(taku[c..c + HAND]))
    && q.score == p.score
    && q.kawahai == p.kawahai
  }

  lemma {:induction false} DealFromDeals(g0: GameState, g: GameState, idx: nat)
    requires idx <= g.playerLen <= |g.players| && |g.players| == |g0.players|
    requires g.playerLen == g0.playerLen && g.taku == g0.taku && g.isNonDuplicate == g0.isNonDuplicate
    requires g.isNonDuplicate ==> g.takuCursol == FIRST_CURSOL + HAND * idx
    requires forall i :: 0 <= i < idx ==> Dealt(g0, g, i)
    requires forall i :: idx <= i < |g.players| ==> g.players[i] == g0.players[i]
    ensures DealFrom(g, idx).Some?
    ensures var r := DealFrom(g, idx).value;
      && |r.players| == |g.players|
      && (forall i :: 0 <= i < g.playerLen ==> Dealt(g0, r, i))
      && (forall i :: g.playerLen <= i < |g.players| ==> r.players[i] == g0.players[i])
      && r.(players := g.players, takuCursol := g.takuCursol) == g
      && (g.isNonDuplicate ==> r.takuCursol == FIRST_CURSOL + HAND * g.playerLen)
      && (!g.isNonDuplicate ==> r.takuCursol == g.takuCursol)
    decreases g.playerLen - idx
  {
    if idx < g.playerLen {
      var g' := DealSeat(g, idx);
      DealSeatDeals(g0, g, idx);
      forall i | 0 <= i < idx + 1 ensures Dealt(g0, g', i) {
        if i < idx {
          assert Dealt(g0, g, i);
          assert g'.players[i] == g.players[i];
        } else {
          assert i == idx;
          assert Dealt(g0, DealSeat(g, idx), idx);
        }
      }
      DealFromDeals(g0, g', idx + 1);
    }
  }

  lemma DealSeatDeals(g0: GameState, g: GameState, idx: nat)
    requires idx < |g.players| == |g0.players|
    requires g.taku == g0.taku && g.isNonDuplicate == g0.isNonDuplicate
    requires g.isNonDuplicate ==> g.takuCursol == FIRST_CURSOL + HAND * idx
    requires g.players[idx] == g0.players[idx]
    ensures Dealt(g0, DealSeat(g, idx), idx)
    ensures g.isNonDuplicate ==> DealSeat(g, idx).takuCursol == FIRST_CURSOL + HAND * (idx + 1)
    ensures !g.isNonDuplicate ==> DealSeat(g, idx).takuCursol == g.takuCursol
  {
    var own := SeatCursol(idx);
    var p := g.players[idx];
    var q := DealSeat(g, idx).players[idx];
    if g.isNonDuplicate {
      assert q == DealtHand(p.(cursol := own), g.taku, g.takuCursol);
      NonDuplicateSeat(p, g.taku, idx);
    } else {
      assert q == DealtHand(p.(cursol := own), g.taku, own).(cursol := own + HAND);
      DuplicateSeat(p, g.taku, idx);
    }
  }

  lemma NonDuplicateSeat(p: Player, taku: seq<Pai>, idx: nat)
    ensures SeatDealt(p, DealtHand(p.(cursol := SeatCursol(idx)), taku, FIRST_CURSOL + HAND * idx), taku, true, idx)
  {
  }

  lemma DuplicateSeat(p: Player, taku: seq<Pai>, idx: nat)
    ensures var own := SeatCursol(idx);
      SeatDealt(p, DealtHand(p.(cursol := own), taku, own).(cursol := own + HAND), taku, false, idx)
  {
  }

  /** `start` in full: the shared cursor, dora counts and each seated
      player's cursor, and every seat receives 13 sorted tiles from its
      range of the wall (seat `i` reads from `14 + 13 * i` in non-duplicate
      play, from its own cursor otherwise), when that range is available. */
  lemma StartDeals(g: GameState)
    requires g.playerLen <= |g.players|
    ensures Start(g).Some?
    ensures var r := Start(g).value;
      && r.doraLen == 1 && r.uradoraLen == 0
      && r.takuCursol == (if g.isNonDuplicate then FIRST_CURSOL + HAND * g.playerLen else FIRST_CURSOL)
      && |r.players| == |g.players|
      && (forall i :: 0 <= i < g.playerLen ==> Dealt(g, r, i))
      && (forall i :: g.playerLen <= i < |g.players| ==> r.players[i] == g.players[i])
      && r.taku == g.taku && r.teban == g.teban && r.oya == g.oya
  {
    var g1 := g.(takuCursol := FIRST_CURSOL, doraLen := 1, uradoraLen := 0);
    DealFromDeals(g1, g1, 0);
    var r := Start(g).value;
    forall i | 0 <= i < g.playerLen ensures Dealt(g, r, i) {
      assert Dealt(g1, r, i);
    }
  }

  /** The own-cursor ranges of different seats do not overlap, and all four
      lie inside the wall. */
  lemma SeatRangesDisjoint(i: nat, j: nat)
    requires i < j < 4
    ensures SeatCursol(i) + HAND <= SeatCursol(j)
    ensures SeatCursol(3) + HAND <= 136
  {
  }

  /** The discard of `sutehai`: with index 13 the drawn tile, otherwise the
      hand tile at `index`. */
  function Discarded(p: Player, index: nat): Pai
    requires index <= HAND
  {
    if index == HAND then p.tsumohai else p.tehai[index]
  }

  /** `sutehai`: discard, keep the hand sorted with the drawn tile taken in,
      reset the draw and pass the turn. `None` where the source indexes out of
      bounds (no current player, an index past 13, a full discard row). */
  function Sutehai(g: GameState, index: nat): (r: Option<GameState>)
    ensures r.Some? <==>
      g.teban < |g.players| && index <= HAND && g.players[g.teban].kawahaiLen < |g.players[g.teban].kawahai|
  {
    if g.teban >= |g.players| || index > HAND then None
    else
      var p := g.players[g.teban];
      if p.kawahaiLen >= |p.kawahai| then None
      else
        var teban := if g.teban + 1 == g.playerLen then 0 else g.teban + 1;
        Some(g.(players := g.players[g.teban := Discard(p, index)], teban := teban))
  }

  /** The discarding player's side of `sutehai`. */
  function Discard(p: Player, index: nat): (r: Player)
    requires index <= HAND && p.kawahaiLen < |p.kawahai|
    ensures r.(tehai := p.tehai, kawahai := p.kawahai, kawahaiLen := p.kawahaiLen,
               tsumohai := p.tsumohai, isTsumo := p.isTsumo) == p
  {
    var tehai :=
      if index == HAND then p.tehai
      else Sort(p.tehai[..index] + p.tehai[index + 1..] + [p.tsumohai]);
    p.(tehai := tehai,
       kawahai := p.kawahai[p.kawahaiLen := Discarded(p, index)],
       kawahaiLen := p.kawahaiLen + 1,
       tsumohai := DefaultPai, isTsumo := false)
  }

  /** After a discard the hand and the discarded tile are the old hand and
      the drawn tile, rearranged: the new hand is the old one less the
      discard plus the draw, sorted when it changed; the discard lands in the
      next slot of the discard row. */
  lemma DiscardKeepsTiles(p: Player, index: nat)
    requires index <= HAND && p.kawahaiLen < |p.kawahai|
    ensures var q := Discard(p, index);
      && multiset(q.tehai) + multiset{Discarded(p, index)} == multiset(p.tehai) + multiset{p.tsumohai}
      && (index == HAND ==> q.tehai == p.tehai)
      && (index < HAND ==> Sorted(q.tehai))
      && q.kawahai == p.kawahai[p.kawahaiLen := Discarded(p, index)]
      && q.kawahaiLen == p.kawahaiLen + 1
      && q.tsumohai == DefaultPai && !q.isTsumo
      && q.score == p.score && q.cursol == p.cursol
  {
    if index < HAND {
      SwapTile(p.tehai, index, p.tsumohai);
    }
  }

  /** Taking the tile at `index` out of `h` and sorting in `t` exchanges the
      one for the other. */
  lemma SwapTile(h: seq<Pai>, index: nat, t: Pai)
    requires index < |h|
    ensures var h' := Sort(h[..index] + h[index + 1..] + [t]);
      multiset(h') + multiset{h[index]} == multiset(h) + multiset{t} && Sorted(h') && |h'| == |h|
  {
    var rest := h[..index] + h[index + 1..];
    assert h == h[..index] + [h[index]] + h[index + 1..];
    assert multiset(h) == multiset(rest) + multiset{h[index]};
  }

  /** `sutehai` applies the discard to the player to move. */
  lemma SutehaiKeepsTiles(g: GameState, index: nat)
    requires g.teban < |g.players| && index <= HAND && g.players[g.teban].kawahaiLen < |g.players[g.teban].kawahai|
    ensures Sutehai(g, index).Some?
    ensures var p, q := g.players[g.teban], Sutehai(g, index).value.players[g.teban];
      && multiset(q.tehai) + multiset{Discarded(p, index)} == multiset(p.tehai) + multiset{p.tsumohai}
      && (index == HAND ==> q.tehai == p.tehai)
      && (index < HAND ==> Sorted(q.tehai))
      && q.kawahai == p.kawahai[p.kawahaiLen := Discarded(p, index)]
      && q.kawahaiLen == p.kawahaiLen + 1
      && q.tsumohai == DefaultPai && !q.isTsumo
  {
    var p := g.players[g.teban];
    assert Sutehai(g, index).value.players[g.teban] == Discard(p, index);
    DiscardKeepsTiles(p, index);
  }

  /** The turn passes cyclically among the seated players, and no other
      player changes. */
  lemma SutehaiPassesTurn(g: GameState, index: nat)
    requires g.teban < |g.players| && index <= HAND && g.players[g.teban].kawahaiLen < |g.players[g.teban].kawahai| && g.teban < g.playerLen
    ensures Sutehai(g, index).Some?
    ensures Sutehai(g, index).value.teban == (g.teban + 1) % g.playerLen
    ensures forall i :: 0 <= i < |g.players| && i != g.teban ==> Sutehai(g, index).value.players[i] == g.players[i]
    ensures |Sutehai(g, index).value.players| == |g.players|
  {
    if g.teban + 1 == g.playerLen {
      ModSelf(g.playerLen);
    } else {
      ModBelow(g.teban + 1, g.playerLen);
    }
  }

  /** The action kinds a client can send. */
  datatype ActionType = ActionSync | ActionSutehai | ActionChii | ActionPon | ActionKan | ActionTsumo | ActionNagashi

  /** What an action does: a new state, a refusal with its reason, a panic
      (`todo!()` arms and out-of-bounds indexing), or the draw of `tsumo`,
      which reads the wall through `TakuT` and is not part of this model. */
  datatype Step = Next(state: GameState) | Refused(reason: string) | Panic | Draw

  const NotTeban: string := "not teban"

  /** `tsumo_agari`: the hand plus the drawn tile is decomposed, the winning
      tile is marked, the best decomposition is scored and added to the
      player's points. Refused when no decomposition holds the drawn tile.
      `TsumoAgari(g, AgariBuild.AsWritten)` is the source's; `Corrected` applies the
      fixed winning-tile search and pair-wind fu. */
  function TsumoAgari(g: GameState, v: AgariBuild.Version): (r: Step)
    ensures r.Next? || r.Refused? || r.Panic?
  {
    if g.teban >= |g.players| then Panic
    else
      var p := g.players[g.teban];
      var tiles := p.tehai + [p.tsumohai];
      if !Shanten.AllKinds(tiles) then Panic
      else
        var ds := WinningForms(p, v);
        if |ds| == 0 then Refused("チョンボ！") else Settle(g, ds, v)
  }

  /** The scoring half of `tsumo_agari`: the dora are read from the wall
      and the best of the decompositions `ds` is added to the score of the
      player to move. */
  function Settle(g: GameState, ds: seq<seq<Mentsu>>, v: AgariBuild.Version): Step
    requires g.teban < |g.players|
  {
    if Dora(g).None? || Uradora(g).None? then Panic
    else
      var p := g.players[g.teban];
      Award(g, ds, GetZikaze(g, g.teban), Yaku.Table(p.isRiichi, p.isIppatsu, Dora(g).value, Uradora(g).value), v)
  }

  /** `get_best_agari` for the player to move, seated at wind `z`, at table `t`. */
  function Award(g: GameState, ds: seq<seq<Mentsu>>, z: nat, t: Yaku.Table, v: AgariBuild.Version): Step
    requires g.teban < |g.players|
  {
    if !(forall i :: 0 <= i < |ds| ==> Yaku.Scorable(g.bakaze, z, ds[i], [], v)) then Panic
    else
      var best := Yaku.GetBestAgari(g.bakaze, z, t, ds, [], 0, v);
      if best.Err? then Refused(best.reason) else Next(Credit(g, best.value.score))
  }

  /** The winner's score raised by `points`. */
  function Credit(g: GameState, points: int): GameState
    requires g.teban < |g.players|
  {
    g.(players := g.players[g.teban := g.players[g.teban].(score := g.players[g.teban].score + points)])
  }

  /** Scoring never refuses a non-empty set of decompositions. */
  lemma SettleNeverRefuses(g: GameState, ds: seq<seq<Mentsu>>, v: AgariBuild.Version)
    requires g.teban < |g.players| && |ds| > 0
    ensures Settle(g, ds, v).Next? || Settle(g, ds, v).Panic?
  {
  }

  /** Scoring goes through only when every decomposition can be scored,
      and then `get_best_agari` has picked one. */
  lemma AwardScorable(g: GameState, ds: seq<seq<Mentsu>>, z: nat, t: Yaku.Table, v: AgariBuild.Version)
    requires g.teban < |g.players| && Award(g, ds, z, t, v).Next?
    ensures forall i :: 0 <= i < |ds| ==> Yaku.Scorable(g.bakaze, z, ds[i], [], v)
    ensures Yaku.GetBestAgari(g.bakaze, z, t, ds, [], 0, v).Ok?
  {
  }

  /** When scoring goes through, only the winner's score changes, by the
      score `get_best_agari` picks. */
  lemma AwardScores(g: GameState, ds: seq<seq<Mentsu>>, z: nat, t: Yaku.Table, v: AgariBuild.Version)
    requires g.teban < |g.players| && Award(g, ds, z, t, v).Next?
    requires forall i :: 0 <= i < |ds| ==> Yaku.Scorable(g.bakaze, z, ds[i], [], v)
    ensures Yaku.GetBestAgari(g.bakaze, z, t, ds, [], 0, v).Ok?
    ensures Award(g, ds, z, t, v).state == Credit(g, Yaku.GetBestAgari(g.bakaze, z, t, ds, [], 0, v).value.score)
  {
  }

  /** Crediting changes the winner's score by exactly the points and nothing
      else. */
  lemma CreditOnlyWinner(g: GameState, points: int)
    requires g.teban < |g.players|
    ensures var q := Credit(g, points);
      && |q.players| == |g.players|
      && q.players[g.teban].score == g.players[g.teban].score + points
      && q.players[g.teban].(score := g.players[g.teban].score) == g.players[g.teban]
      && (forall i :: 0 <= i < |g.players| && i != g.teban ==> q.players[i] == g.players[i])
      && q.(players := g.players) == g
  {
  }

  /** The decompositions of a player's hand with the drawn tile, each with
      the drawn tile marked as the winning tile: over every slot of each
      meld as written, over the slots that hold tiles when corrected. */
  function WinningForms(p: Player, v: AgariBuild.Version): seq<seq<Mentsu>>
    requires Shanten.AllKinds(p.tehai + [p.tsumohai])
  {
    var ds := Enumerate.AllOfMentsu(Shanten.FromTiles(p.tehai + [p.tsumohai]), 0);
    match v
    case AsWritten => Machi.AddMachiToMentsu(ds, p.tsumohai)
    case Corrected => Machi.AddMachiToMentsuCorrected(ds, p.tsumohai)
  }

  /** The self-drawn win is refused exactly when no decomposition marks the
      drawn tile. */
  lemma TsumoAgariRefused(g: GameState, v: AgariBuild.Version)
    requires g.teban < |g.players|
    requires Shanten.AllKinds(g.players[g.teban].tehai + [g.players[g.teban].tsumohai])
    ensures TsumoAgari(g, v).Refused? <==> |WinningForms(g.players[g.teban], v)| == 0
    ensures |WinningForms(g.players[g.teban], v)| > 0 ==> TsumoAgari(g, v) == Settle(g, WinningForms(g.players[g.teban], v), v)
  {
    var p := g.players[g.teban];
    var ds := WinningForms(p, v);
    assert TsumoAgari(g, v) == if |ds| == 0 then Refused("チョンボ！") else Settle(g, ds, v);
    if |ds| > 0 {
      SettleNeverRefuses(g, ds, v);
    }
  }

  /** `action`: a discard or a win claim from anyone but the player to move
      is refused; a sync from them does nothing; the calls are unimplemented. */
  function Action(g: GameState, action: ActionType, playerIndex: nat, param: nat): (r: Step)
    ensures playerIndex != g.teban ==>
      r == match action
        case ActionSync => Next(g)
        case ActionSutehai => Refused(NotTeban)
        case ActionTsumo => Refused(NotTeban)
        case _ => Panic
    ensures playerIndex == g.teban && action == ActionSutehai ==>
      (r.Next? <==> Sutehai(g, param).Some?) && (r.Next? ==> r.state == Sutehai(g, param).value)
  {
    match action
    case ActionSync => if playerIndex == g.teban then Draw else Next(g)
    case ActionSutehai =>
      if playerIndex == g.teban then
        match Sutehai(g, param)
        case Some(g') => Next(g')
        case None => Panic
      else Refused(NotTeban)
    case ActionTsumo => if playerIndex == g.teban then TsumoAgari(g, AgariBuild.AsWritten) else Refused(NotTeban)
    case _ => Panic
  }

  /** The first wall segment, `taku.n1`. */
  function N1(g: GameState): seq<Pai> {
    if |g.taku| >= 32 then g.taku[..32] else g.taku
  }

  /** `get_dora`: the first `dora_len` tiles of `n1`; `None` past its end. */
  function Dora(g: GameState): (r: Option<seq<Pai>>)
    ensures r.Some? <==> DORA_START + g.doraLen <= |N1(g)|
    ensures r.Some? ==> |r.value| == g.doraLen
  {
    if DORA_START + g.doraLen <= |N1(g)| then Some(N1(g)[DORA_START .. DORA_START + g.doraLen]) else None
  }

  /** `get_uradora`: `uradora_len` tiles of `n1` from index 5; `None` past its end. */
  function Uradora(g: GameState): (r: Option<seq<Pai>>)
    ensures r.Some? <==> URADORA_START + g.uradoraLen <= |N1(g)|
    ensures r.Some? ==> |r.value| == g.uradoraLen
  {
    if URADORA_START + g.uradoraLen <= |N1(g)| then Some(N1(g)[URADORA_START .. URADORA_START + g.uradoraLen]) else None
  }

  /** Write `tiles` into `n1` from `start` on; `None` past its end. */
  function CopyInto(g: GameState, start: nat, tiles: seq<Pai>): (r: Option<seq<Pai>>)
    ensures r.Some? <==> start + |tiles| <= |N1(g)|
    ensures r.Some? ==>
      && |r.value| == |g.taku|
      && r.value[start .. start + |tiles|] == tiles
      && (forall i :: 0 <= i < |g.taku| && !(start <= i < start + |tiles|) ==> r.value[i] == g.taku[i])
  {
    if start + |tiles| <= |N1(g)| then
      Some(g.taku[..start] + tiles + g.taku[start + |tiles|..])
    else None
  }

  /** `copy_dora`: the dora count and the dora tiles at the start of `n1`. */
  function CopyDora(g: GameState, dora: seq<Pai>): (r: Option<GameState>)
    ensures r.Some? <==> DORA_START + |dora| <= |N1(g)|
  {
    match CopyInto(g, DORA_START, dora)
    case None => None
    case Some(taku) => Some(g.(doraLen := |dora|, taku := taku))
  }

  /** `copy_uradora`: the ura-dora count and tiles from index 5 of `n1`. */
  function CopyUradora(g: GameState, uradora: seq<Pai>): (r: Option<GameState>)
    ensures r.Some? <==> URADORA_START + |uradora| <= |N1(g)|
  {
    match CopyInto(g, URADORA_START, uradora)
    case None => None
    case Some(taku) => Some(g.(uradoraLen := |uradora|, taku := taku))
  }

  /** What is copied in is read back. */
  lemma CopyThenGet(g: GameState, dora: seq<Pai>, uradora: seq<Pai>)
    requires |dora| <= 32 && URADORA_START + |uradora| <= 32 && |g.taku| >= 32
    ensures CopyDora(g, dora).Some? && Dora(CopyDora(g, dora).value) == Some(dora)
    ensures CopyUradora(g, uradora).Some? && Uradora(CopyUradora(g, uradora).value) == Some(uradora)
  {
    var t := CopyDora(g, dora).value.taku;
    assert t[..32][0 .. |dora|] == t[0 .. |dora|];
    var u := CopyUradora(g, uradora).value.taku;
    assert u[..32][5 .. 5 + |uradora|] == u[5 .. 5 + |uradora|];
  }

  /** Up to five dora and ura-dora do not overlap: copying the ura-dora
      keeps the dora. */
  lemma UradoraKeepsDora(g: GameState, dora: seq<Pai>, uradora: seq<Pai>)
    requires |dora| <= URADORA_START && URADORA_START + |uradora| <= 32 && |g.taku| >= 32
    ensures var g1 := CopyDora(g, dora).value;
      CopyUradora(g1, uradora).Some? && Dora(CopyUradora(g1, uradora).value) == Some(dora)
  {
    var g1 := CopyDora(g, dora).value;
    CopyThenGet(g, dora, uradora);
    var g2 := CopyUradora(g1, uradora).value;
    assert forall i :: 0 <= i < |dora| ==> g2.taku[i] == g1.taku[i];
    assert g2.taku[..32][0 .. |dora|] == g1.taku[..32][0 .. |dora|];
  }
}
