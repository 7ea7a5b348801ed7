/** `num_to_hai`, the serialiser that writes deck numbers (kind * 4 + id) in
    the tile-string notation the stored hands are read back with. */
module PlayLog {
  import opened Wrappers
  import opened Tiles
  import opened LoadPailist

  /** The initial suit, which no deck number below 9180 has. */
  const NoSuit: nat := 255

  /** `4^e`, the value of a left shift by `2 * e`. */
  function Pow4(e: nat): (r: nat)
    ensures r >= 1
  {
    if e == 0 then 1 else 4 * Pow4(e - 1)
  }

  /** Red fives of suit `s` configured in `has_aka`: `(has_aka >> (s * 2)) & 3`. */
  function AkaCount(hasAka: nat, s: nat): (r: nat)
    ensures r < 4
  {
    (hasAka / Pow4(s)) % 4
  }

  function DigitChar(n: nat): (c: char)
    requires n < 10
    ensures DigitValue(c) == Some(n)
  {
    ('0' as int + n) as char
  }

  /** The digit written for deck number `pn` of suit `s`: its rank 1..9, or 0
      for a five whose copy id is below the suit's red-five count. */
  function DigitOf(pn: nat, hasAka: nat): (d: nat)
    ensures d < 10
    ensures d == 0 || d == pn % 36 / 4 + 1
  {
    var s := pn / 36;
    var num := pn % 36 / 4 + 1;
    if s < 3 && num == 5 && pn % 4 < AkaCount(hasAka, s) then 0 else num
  }

  /** The loop of `num_to_hai` from suit state `suit` on: a suit letter is
      written whenever the suit changes, then one digit per tile; `None`
      where the suit indexes past the four letters. */
  function HaiFrom(list: seq<Option<nat>>, suit: nat, hasAka: nat): (r: Option<string>)
  {
    if |list| == 0 then Some([])
    else match list[0]
      case None => HaiFrom(list[1..], suit, hasAka)
      case Some(pn) =>
        var s := pn / 36;
        if s != suit && s >= 4 then None
        else
          var letter := if s != suit then [Colors[s]] else [];
          match HaiFrom(list[1..], s, hasAka)
          case None => None
          case Some(rest) => Some(letter + [DigitChar(DigitOf(pn, hasAka))] + rest)
  }

  /** `num_to_hai`. */
  function NumToHai(list: seq<Option<nat>>, hasAka: nat): Option<string> {
    HaiFrom(list, NoSuit, hasAka)
  }

  /** The numbers present in the list, in order. */
  function Present(list: seq<Option<nat>>): (r: seq<nat>)
    ensures |r| <= |list|
  {
    if |list| == 0 then []
    else (if list[0].Some? then [list[0].value] else []) + Present(list[1..])
  }

  function AllPresent(xs: seq<nat>): (r: seq<Option<nat>>)
    ensures |r| == |xs|
    ensures forall i :: 0 <= i < |xs| ==> r[i] == Some(xs[i])
  {
    if |xs| == 0 then [] else [Some(xs[0])] + AllPresent(xs[1..])
  }

  /** Missing entries contribute nothing: the output depends only on the
      numbers present. */
  lemma {:induction false} HaiFromSkipsNone(list: seq<Option<nat>>, suit: nat, hasAka: nat)
    ensures HaiFrom(list, suit, hasAka) == HaiFrom(AllPresent(Present(list)), suit, hasAka)
  {
    if |list| > 0 {
      var xs := Present(list);
      match list[0] {
        case None =>
          assert xs == Present(list[1..]);
          HaiFromSkipsNone(list[1..], suit, hasAka);
        case Some(pn) =>
          assert xs == [pn] + Present(list[1..]);
          assert AllPresent(xs)[0] == Some(pn);
          assert AllPresent(xs)[1..] == AllPresent(Present(list[1..]));
          HaiFromSkipsNone(list[1..], pn / 36, hasAka);
      }
    }
  }

  lemma NumToHaiSkipsNone(list: seq<Option<nat>>, hasAka: nat)
    ensures NumToHai(list, hasAka) == NumToHai(AllPresent(Present(list)), hasAka)
  {
    HaiFromSkipsNone(list, NoSuit, hasAka);
  }

  /** The suit index goes out of bounds at a number whose suit is 4 or more
      and differs from the suit before it. */
  predicate SuitOverflowAt(xs: seq<nat>, suit: nat, i: nat)
    requires i < |xs|
  {
    var prev := if i == 0 then suit else xs[i - 1] / 36;
    xs[i] / 36 >= 4 && xs[i] / 36 != prev
  }

  lemma {:induction false} HaiFromFails(xs: seq<nat>, suit: nat, hasAka: nat)
    ensures HaiFrom(AllPresent(xs), suit, hasAka).None? <==> exists i :: 0 <= i < |xs| && SuitOverflowAt(xs, suit, i)
  {
    if |xs| > 0 {
      var s := xs[0] / 36;
      var list := AllPresent(xs);
      assert list[0] == Some(xs[0]);
      assert list[1..] == AllPresent(xs[1..]);
      if !SuitOverflowAt(xs, suit, 0) {
        HaiFromFails(xs[1..], s, hasAka);
        assert HaiFrom(list, suit, hasAka).None? <==> HaiFrom(AllPresent(xs[1..]), s, hasAka).None?;
        forall i | 1 <= i < |xs|
          ensures SuitOverflowAt(xs, suit, i) <==> SuitOverflowAt(xs[1..], s, i - 1)
        {
          if i > 1 { assert xs[1..][i - 2] == xs[i - 1]; }
        }
        if exists i :: 0 <= i < |xs[1..]| && SuitOverflowAt(xs[1..], s, i) {
          var i :| 0 <= i < |xs[1..]| && SuitOverflowAt(xs[1..], s, i);
          assert SuitOverflowAt(xs, suit, i + 1);
        }
        if exists i :: 0 <= i < |xs| && SuitOverflowAt(xs, suit, i) {
          var i :| 0 <= i < |xs| && SuitOverflowAt(xs, suit, i);
          assert i >= 1;
          assert SuitOverflowAt(xs[1..], s, i - 1);
        }
      }
    }
  }

  /** `num_to_hai` panics exactly when some number's suit is 4 or more and
      differs from the previous number's suit (the first number is compared
      with the initial 255); every other input is written. */
  lemma NumToHaiFails(list: seq<Option<nat>>, hasAka: nat)
    ensures NumToHai(list, hasAka).None? <==>
      exists i :: 0 <= i < |Present(list)| && SuitOverflowAt(Present(list), NoSuit, i)
  {
    NumToHaiSkipsNone(list, hasAka);
    HaiFromFails(Present(list), NoSuit, hasAka);
  }

  /** Deck numbers, and any number below 144, are always written. */
  lemma NumToHaiDeck(list: seq<Option<nat>>, hasAka: nat)
    requires forall i :: 0 <= i < |list| && list[i].Some? ==> list[i].value < 144
    ensures NumToHai(list, hasAka).Some?
  {
    var xs := Present(list);
    PresentBelow(list, 144);
    forall i | 0 <= i < |xs| ensures !SuitOverflowAt(xs, NoSuit, i) {
      assert xs[i] < 144;
    }
    NumToHaiFails(list, hasAka);
  }

  lemma {:induction false} PresentBelow(list: seq<Option<nat>>, n: nat)
    requires forall i :: 0 <= i < |list| && list[i].Some? ==> list[i].value < n
    ensures forall i :: 0 <= i < |Present(list)| ==> Present(list)[i] < n
  {
    if |list| > 0 {
      PresentBelow(list[1..], n);
      assert forall i :: 1 <= i < |list| ==> list[1..][i - 1] == list[i];
    }
  }

  /** The kinds of the numbers present, as `str_to_pais` tiles of id 0. */
  function KindsOf(xs: seq<nat>): (r: seq<Pai>)
    ensures |r| == |xs|
    ensures forall i :: 0 <= i < |xs| ==> r[i] == Pai(xs[i] / 4, 0)
  {
    if |xs| == 0 then [] else [Pai(xs[0] / 4, 0)] + KindsOf(xs[1..])
  }

  /** One written tile reads back: its letter (if any) sets the reader's
      suit, and its digit is its kind in that suit. */
  lemma ReadBackStep(pn: nat, suit: nat, readSuit: nat, rest: string, tiles: seq<Pai>)
    requires pn < 144 && readSuit < 4 && (suit < 4 ==> readSuit == suit)
    requires PaisFrom(rest, pn / 36) == Some(tiles)
    ensures var letter := if pn / 36 != suit then [Colors[pn / 36]] else [];
      PaisFrom(letter + [DigitChar(DigitOf(pn, 0))] + rest, readSuit) == Some([Pai(pn / 4, 0)] + tiles)
  {
    var s := pn / 36;
    var d := DigitChar(DigitOf(pn, 0));
    assert AkaCount(0, s) == 0;
    assert DigitOf(pn, 0) == pn % 36 / 4 + 1;
    assert TileKind(s, d) == Some(pn / 4);
    assert SuitLetter(d).None?;
    var tail := [d] + rest;
    assert tail[0] == d && tail[1..] == rest;
    assert PaisFrom(tail, s) == Some([Pai(pn / 4, 0)] + tiles);
    if s != suit {
      var out := [Colors[s]] + [d] + rest;
      assert out[0] == Colors[s] && out[1..] == tail;
      assert SuitLetter(Colors[s]) == Some(s);
    } else {
      assert [] + [d] + rest == tail;
    }
  }

  /** Without red fives the writer and `str_to_pais` agree from any pair of
      states where the reader's suit is the writer's whenever the writer has
      one. */
  lemma {:induction false} HaiFromReadsBack(xs: seq<nat>, suit: nat, readSuit: nat)
    requires readSuit < 4 && (suit < 4 ==> readSuit == suit)
    requires forall i :: 0 <= i < |xs| ==> xs[i] < 144
    ensures HaiFrom(AllPresent(xs), suit, 0).Some?
    ensures PaisFrom(HaiFrom(AllPresent(xs), suit, 0).value, readSuit) == Some(KindsOf(xs))
  {
    if |xs| > 0 {
      var pn := xs[0];
      var s := pn / 36;
      var list := AllPresent(xs);
      assert list[0] == Some(pn);
      assert list[1..] == AllPresent(xs[1..]);
      HaiFromReadsBack(xs[1..], s, s);
      var rest := HaiFrom(AllPresent(xs[1..]), s, 0).value;
      ReadBackStep(pn, suit, readSuit, rest, KindsOf(xs[1..]));
      assert KindsOf(xs) == [Pai(pn / 4, 0)] + KindsOf(xs[1..]);
    }
  }

  /** Round trip: numbers below 144 written without red fives read back
      as the tiles of their kinds, `x >> 2`. */
  lemma NumToHaiRoundTrip(list: seq<Option<nat>>)
    requires forall i :: 0 <= i < |list| && list[i].Some? ==> list[i].value < 144
    ensures NumToHai(list, 0).Some?
    ensures StrToPais(NumToHai(list, 0).value) == Some(KindsOf(Present(list)))
  {
    PresentBelow(list, 144);
    NumToHaiSkipsNone(list, 0);
    HaiFromReadsBack(Present(list), NoSuit, 0);
  }

  /** The kinds read back are the kinds the packed decode gives the same
      deck numbers. */
  lemma ReadBackMatchesPacked(xs: seq<nat>)
    requires forall i :: 0 <= i < |xs| ==> xs[i] < 136
    ensures forall i :: 0 <= i < |xs| ==> KindsOf(xs)[i] == Pai(DecodePacked(xs[i]).paiNum, 0)
  {
    forall i | 0 <= i < |xs| ensures KindsOf(xs)[i] == Pai(DecodePacked(xs[i]).paiNum, 0) {
      var x := xs[i];
      assert x / 4 < 34;
      assert DecodePacked(x).paiNum == (x / 4) % 256 == x / 4;
    }
  }

  /** The first tile always gets a suit letter; consecutive tiles of one suit
      share it; missing entries are skipped. */
  lemma NumToHaiSamples()
    ensures NumToHai([Some(0), None, Some(5), Some(135)], 0) == Some("m12z7")
    ensures NumToHai([Some(36), Some(0)], 0) == Some("p1m1")
  {
    assert Colors[0] == 'm' && Colors[1] == 'p' && Colors[3] == 'z';
    assert DigitChar(1) == '1' && DigitChar(2) == '2' && DigitChar(7) == '7';
    var l1: seq<Option<nat>> := [Some(0), None, Some(5), Some(135)];
    assert l1[1..] == [None, Some(5), Some(135)];
    assert l1[1..][1..] == [Some(5), Some(135)];
    assert l1[1..][1..][1..] == [Some(135)];
    assert DigitOf(135, 0) == 7 && DigitOf(5, 0) == 2 && DigitOf(0, 0) == 1;
    assert HaiFrom([Some(135)][1..], 3, 0) == Some([]);
    assert HaiFrom([Some(135)], 0, 0) == Some(['z'] + ['7'] + []);
    assert ['z'] + ['7'] + [] == "z7";
    assert HaiFrom([Some(5), Some(135)], 0, 0) == Some([] + ['2'] + "z7");
    assert [] + ['2'] + "z7" == "2z7";
    assert HaiFrom([None, Some(5), Some(135)], 0, 0) == Some("2z7");
    assert ['m'] + ['1'] + "2z7" == "m12z7";
    var l2: seq<Option<nat>> := [Some(36), Some(0)];
    assert l2[1..] == [Some(0)];
    assert DigitOf(36, 0) == 1;
    assert HaiFrom([Some(0)][1..], 0, 0) == Some([]);
    assert HaiFrom([Some(0)], 1, 0) == Some(['m'] + ['1'] + []);
    assert ['m'] + ['1'] + [] == "m1";
    assert ['p'] + ['1'] + "m1" == "p1m1";
  }

  /** With red fives configured, a red man five is written `m0`, which
      `str_to_pais` cannot read (the digit underflows), and a red pin five
      `p0`, which it reads as kind 8, the nine of man. */
  lemma RedFiveNotReadBack()
    ensures NumToHai([Some(16)], 1) == Some("m0")
    ensures StrToPais("m0") == None
    ensures NumToHai([Some(52)], 4) == Some("p0")
    ensures StrToPais("p0") == Some([Pai(8, 0)])
  {
    assert Colors[0] == 'm' && Colors[1] == 'p';
    assert DigitChar(0) == '0';
    assert AkaCount(1, 0) == 1;
    assert DigitOf(16, 1) == 0;
    assert HaiFrom([Some(16)][1..], 0, 1) == Some([]);
    assert ['m'] + ['0'] + [] == "m0";
    assert "m0"[1..] == "0";
    assert TileKind(0, '0') == None;
    assert AkaCount(4, 1) == 1 by {
      assert Pow4(1) == 4;
    }
    assert DigitOf(52, 4) == 0;
    assert HaiFrom([Some(52)][1..], 1, 4) == Some([]);
    assert ['p'] + ['0'] + [] == "p0";
    assert "p0"[1..] == "0";
    assert "p0"[1..][1..] == "";
    assert TileKind(1, '0') == Some(8);
    assert "0"[1..] == [];
    assert PaisFrom("0"[1..], 1) == Some([]);
    assert PaisFrom("0", 1) == Some([Pai(8, 0)] + []);
    assert PaisFrom("p0", 0) == PaisFrom("p0"[1..], 1);
    assert [Pai(8, 0)] + [] == [Pai(8, 0)];
    assert StrToPais("p0") == PaisFrom("p0", 0);
  }

  /** A number whose suit equals the initial 255 gets no letter at all; a
      first number of suit 4 is out of bounds. */
  lemma NoSuitQuirk()
    ensures NumToHai([Some(9180)], 0) == Some("1")
    ensures NumToHai([Some(144)], 0) == None
  {
    assert DigitOf(9180, 0) == 1;
    assert DigitChar(1) == '1';
    assert HaiFrom([Some(9180)][1..], 255, 0) == Some([]);
    assert [] + ['1'] + [] == "1";
  }
}
