/** The tile-string notation of stored hands (`m123p456z77`, melds such as
    `m3-45`, fields separated by commas) and the packed tile number of stored
    dora and winning tiles. */
module LoadPailist {
  import opened Wrappers
  import opened Tiles
  import opened Melds

  /** The suit letters, in suit order: man, pin, sou, honours. */
  const Colors: string := "mpsz"

  /** The suit a suit letter selects. */
  function SuitLetter(c: char): (r: Option<nat>)
    ensures r.Some? <==> c in Colors
    ensures r.Some? ==> r.value < 4 && Colors[r.value] == c
  {
    if c == 'm' then Some(0)
    else if c == 'p' then Some(1)
    else if c == 's' then Some(2)
    else if c == 'z' then Some(3)
    else None
  }

  /** `char::to_digit(10)`: the value of an ASCII decimal digit. */
  function DigitValue(c: char): (r: Option<nat>)
    ensures r.Some? <==> '0' <= c <= '9'
    ensures r.Some? ==> r.value < 10 && c as int == '0' as int + r.value
  {
    if '0' <= c <= '9' then Some(c as int - '0' as int) else None
  }

  /** The kind a digit denotes in a suit, `suit * 9 + d - 1` in `u8`: a
      non-digit fails the `unwrap`, and `0` in the man suit underflows. */
  function TileKind(suit: nat, c: char): (r: Option<nat>)
    requires suit < 4
    ensures r.Some? <==> '0' <= c <= '9' && !(suit == 0 && c == '0')
    ensures r.Some? ==> r.value < 36 && r.value / 9 == (if c == '0' then suit - 1 else suit)
  {
    match DigitValue(c)
    case None => None
    case Some(d) => if suit * 9 + d < 1 then None else Some(suit * 9 + d - 1)
  }

  /** `str_to_pais` from suit `suit` on: letters switch the suit, every other
      character is a digit that yields one tile of id 0. */
  function PaisFrom(s: string, suit: nat): (r: Option<seq<Pai>>)
    requires suit < 4
    ensures r.Some? ==> |r.value| == DigitCount(s)
    ensures r.Some? ==> forall i :: 0 <= i < |r.value| ==> r.value[i].id == 0 && r.value[i].paiNum < 36
  {
    if |s| == 0 then Some([])
    else match SuitLetter(s[0])
      case Some(t) => PaisFrom(s[1..], t)
      case None =>
        match TileKind(suit, s[0])
        case None => None
        case Some(k) =>
          match PaisFrom(s[1..], suit)
          case None => None
          case Some(rest) => Some([Pai(k, 0)] + rest)
  }

  /** Number of characters that are not suit letters. */
  function DigitCount(s: string): nat {
    if |s| == 0 then 0 else (if s[0] in Colors then 0 else 1) + DigitCount(s[1..])
  }

  /** `str_to_pais`: the suit starts as man; `None` where the source panics. */
  function StrToPais(s: string): Option<seq<Pai>> {
    PaisFrom(s, 0)
  }

  /** The suit in force after reading `s` from suit `suit`. */
  function SuitAfter(s: string, suit: nat): (r: nat)
    requires suit < 4
    ensures r < 4
  {
    if |s| == 0 then suit
    else match SuitLetter(s[|s| - 1])
      case Some(t) => t
      case None => SuitAfter(s[..|s| - 1], suit)
  }

  /** Reading `a + b` reads `a`, then `b` in the suit `a` leaves. */
  lemma {:induction false} PaisFromAppend(a: string, b: string, suit: nat)
    requires suit < 4
    ensures PaisFrom(a + b, suit) ==
      match PaisFrom(a, suit)
      case None => None
      case Some(x) =>
        match PaisFrom(b, SuitAfter(a, suit))
        case None => None
        case Some(y) => Some(x + y)
    decreases |a|
  {
    if |a| == 0 {
      assert a + b == b;
      match PaisFrom(b, suit) {
        case None =>
        case Some(y) => assert [] + y == y;
      }
    } else {
      assert (a + b)[0] == a[0];
      assert (a + b)[1..] == a[1..] + b;
      SuitAfterCons(a, suit);
      match SuitLetter(a[0]) {
        case Some(t) =>
          PaisFromAppend(a[1..], b, t);
        case None =>
          PaisFromAppend(a[1..], b, suit);
          match TileKind(suit, a[0]) {
            case None =>
            case Some(k) =>
              match PaisFrom(a[1..], suit) {
                case None =>
                case Some(x') =>
                  match PaisFrom(b, SuitAfter(a, suit)) {
                    case None =>
                    case Some(y) => assert [Pai(k, 0)] + (x' + y) == ([Pai(k, 0)] + x') + y;
                  }
              }
          }
      }
    }
  }

  /** The suit after `a` is the suit after its tail, read in the suit its
      first character leaves. */
  lemma {:induction false} SuitAfterCons(a: string, suit: nat)
    requires suit < 4 && |a| > 0
    ensures SuitAfter(a, suit) ==
      match SuitLetter(a[0])
      case Some(t) => SuitAfter(a[1..], t)
      case None => SuitAfter(a[1..], suit)
    decreases |a|
  {
    if |a| > 1 {
      var init := a[..|a| - 1];
      assert init[0] == a[0];
      assert init[1..] == a[1..][..|a[1..]| - 1];
      assert a[1..][|a[1..]| - 1] == a[|a| - 1];
      SuitAfterCons(init, suit);
    }
  }

  /** The tile read for the digit at position `i` has the kind its digit
      denotes in the suit of the letters before it, and sits after one tile
      per earlier digit. */
  lemma StrToPaisAt(s: string, i: nat)
    requires StrToPais(s).Some? && i < |s| && s[i] !in Colors
    ensures DigitCount(s[..i]) < |StrToPais(s).value|
    ensures TileKind(SuitAfter(s[..i], 0), s[i]).Some?
    ensures StrToPais(s).value[DigitCount(s[..i])] == Pai(TileKind(SuitAfter(s[..i], 0), s[i]).value, 0)
  {
    var a, b := s[..i], s[i..];
    assert s == a + b;
    PaisFromAppend(a, b, 0);
    var u := SuitAfter(a, 0);
    assert b[0] == s[i];
    assert SuitLetter(b[0]).None?;
  }

  /** Meld markers: the previous tile came from the left, opposite or right player. */
  predicate IsMarker(c: char) {
    c == '-' || c == '=' || c == '+'
  }

  function MarkerFlag(c: char): (f: Flag)
    requires IsMarker(c)
    ensures f != FlagNone && f != FlagAgari
  {
    if c == '-' then FlagKamicha else if c == '=' then FlagToimen else FlagSimocha
  }

  /** The string without its markers. */
  function Strip(s: string): (r: string)
    ensures |r| <= |s|
  {
    if |s| == 0 then []
    else (if IsMarker(s[0]) then [] else [s[0]]) + Strip(s[1..])
  }

  predicate HasMarker(s: string) {
    |s| > 0 && (IsMarker(s[0]) || HasMarker(s[1..]))
  }

  /** A marker comes before any tile digit (only suit letters precede it). */
  predicate LeadingMarker(s: string) {
    |s| > 0 && (IsMarker(s[0]) || (s[0] in Colors && LeadingMarker(s[1..])))
  }

  /** The state `str_to_fulo` carries: the slots, the next slot to fill and
      whether a marker was seen. */
  datatype FuloScan = FuloScan(slots: Slots, index: nat, naki: bool)

  /** The character loop of `str_to_fulo`; `None` where the source indexes out
      of bounds (a marker before any tile, a fifth tile) or fails to read a digit. */
  function FuloFrom(s: string, suit: nat, st: FuloScan): (r: Option<FuloScan>)
    requires suit < 4 && st.index <= 4
    ensures r.Some? ==> r.value.index <= 4
  {
    if |s| == 0 then Some(st)
    else match SuitLetter(s[0])
      case Some(t) => FuloFrom(s[1..], t, st)
      case None =>
        if IsMarker(s[0]) then
          if st.index == 0 then None
          else
            var slot := st.slots[st.index - 1];
            FuloFrom(s[1..], suit, st.(slots := st.slots[st.index - 1 := slot.(flag := MarkerFlag(s[0]))], naki := true))
        else
          match TileKind(suit, s[0])
          case None => None
          case Some(k) =>
            if st.index == 4 then None
            else
              var slot := st.slots[st.index];
              FuloFrom(s[1..], suit, st.(slots := st.slots[st.index := slot.(paiNum := k)], index := st.index + 1))
  }

  const NoSlots: Slots := [Blank, Blank, Blank, Blank]

  /** `str_to_fulo`: four tiles make a kan (open when marked), otherwise equal
      first two slots make a triplet and anything else a run. `pai_len` keeps
      its default 0. */
  function StrToFulo(s: string): Option<Mentsu> {
    match FuloFrom(s, 0, FuloScan(NoSlots, 0, false))
    case None => None
    case Some(st) =>
      var t :=
        if st.index == 4 then (if st.naki then Minkan else Ankan)
        else if st.slots[0].paiNum == st.slots[1].paiNum then Koutsu
        else Shuntsu;
      Some(Mentsu(st.slots, 0, t))
  }

  /** The meld loop reads the same tiles as `str_to_pais` on the string
      without markers, into the slots after the `index` already filled. */
  predicate ReadsTiles(s: string, suit: nat, st: FuloScan)
    requires suit < 4 && st.index <= 4
  {
    var r := FuloFrom(s, suit, st);
    var ps := PaisFrom(Strip(s), suit);
    && (r.Some? <==> ps.Some? && st.index + |ps.value| <= 4 && !(st.index == 0 && LeadingMarker(s)))
    && (r.Some? ==>
          && r.value.index == st.index + |ps.value|
          && (r.value.naki <==> st.naki || HasMarker(s))
          && (forall j :: 0 <= j < st.index ==> r.value.slots[j].paiNum == st.slots[j].paiNum)
          && (forall j :: 0 <= j < |ps.value| ==> r.value.slots[st.index + j].paiNum == ps.value[j].paiNum)
          && (forall j :: r.value.index <= j < 4 ==> r.value.slots[j] == st.slots[j])
          && (!HasMarker(s) ==> forall j :: 0 <= j < 4 ==> r.value.slots[j].flag == st.slots[j].flag))
  }

  lemma LetterStep(s: string, suit: nat, st: FuloScan, t: nat)
    requires suit < 4 && st.index <= 4 && |s| > 0 && SuitLetter(s[0]) == Some(t)
    requires ReadsTiles(s[1..], t, st)
    ensures ReadsTiles(s, suit, st)
  {
    assert !IsMarker(s[0]);
    assert Strip(s) == [s[0]] + Strip(s[1..]);
    assert ([s[0]] + Strip(s[1..]))[1..] == Strip(s[1..]);
  }

  lemma MarkerStep(s: string, suit: nat, st: FuloScan)
    requires suit < 4 && st.index <= 4 && |s| > 0 && SuitLetter(s[0]).None? && IsMarker(s[0])
    requires st.index > 0 ==>
      var slot := st.slots[st.index - 1];
      ReadsTiles(s[1..], suit, st.(slots := st.slots[st.index - 1 := slot.(flag := MarkerFlag(s[0]))], naki := true))
    ensures ReadsTiles(s, suit, st)
  {
    assert Strip(s) == Strip(s[1..]);
    assert LeadingMarker(s);
  }

  lemma DigitStep(s: string, suit: nat, st: FuloScan, k: nat)
    requires suit < 4 && st.index <= 4 && |s| > 0 && SuitLetter(s[0]).None? && !IsMarker(s[0])
    requires TileKind(suit, s[0]) == Some(k)
    requires st.index < 4 ==>
      var slot := st.slots[st.index];
      ReadsTiles(s[1..], suit, st.(slots := st.slots[st.index := slot.(paiNum := k)], index := st.index + 1))
    ensures ReadsTiles(s, suit, st)
  {
    var c := s[0];
    assert !LeadingMarker(s);
    assert Strip(s) == [c] + Strip(s[1..]);
    assert ([c] + Strip(s[1..]))[1..] == Strip(s[1..]);
    assert ([c] + Strip(s[1..]))[0] == c;
    var ps' := PaisFrom(Strip(s[1..]), suit);
    var ps := PaisFrom(Strip(s), suit);
    if ps'.Some? {
      assert ps.value == [Pai(k, 0)] + ps'.value;
    }
    if st.index < 4 {
      var slot := st.slots[st.index];
      var st' := st.(slots := st.slots[st.index := slot.(paiNum := k)], index := st.index + 1);
      var r := FuloFrom(s, suit, st);
      if r.Some? {
        forall j | 0 <= j < |ps.value|
          ensures r.value.slots[st.index + j].paiNum == ps.value[j].paiNum
        {
          if j > 0 {
            assert ps.value[j] == ps'.value[j - 1];
            assert st.index + j == st'.index + (j - 1);
          }
        }
      }
    }
  }

  lemma {:induction false} FuloFromReadsTiles(s: string, suit: nat, st: FuloScan)
    requires suit < 4 && st.index <= 4
    ensures ReadsTiles(s, suit, st)
    decreases |s|
  {
    if |s| > 0 {
      match SuitLetter(s[0]) {
        case Some(t) =>
          FuloFromReadsTiles(s[1..], t, st);
          LetterStep(s, suit, st, t);
        case None =>
          if IsMarker(s[0]) {
            if st.index > 0 {
              var slot := st.slots[st.index - 1];
              FuloFromReadsTiles(s[1..], suit, st.(slots := st.slots[st.index - 1 := slot.(flag := MarkerFlag(s[0]))], naki := true));
            }
            MarkerStep(s, suit, st);
          } else {
            match TileKind(suit, s[0]) {
              case None =>
              case Some(k) =>
                if st.index < 4 {
                  var slot := st.slots[st.index];
                  FuloFromReadsTiles(s[1..], suit, st.(slots := st.slots[st.index := slot.(paiNum := k)], index := st.index + 1));
                }
                DigitStep(s, suit, st, k);
            }
          }
      }
    }
  }

  /** What `str_to_fulo` returns: the slots hold the tiles `str_to_pais`
      reads from the markerless string, the type follows the tile count, the
      markers and the first two tiles, and `pai_len` stays 0. It fails exactly
      when that reading fails, yields more than four tiles, or a marker comes
      before the first tile. */
  lemma StrToFuloMeaning(s: string)
    ensures StrToFulo(s).Some? <==>
      StrToPais(Strip(s)).Some? && |StrToPais(Strip(s)).value| <= 4 && !LeadingMarker(s)
    ensures StrToFulo(s).Some? ==>
      var m, ps := StrToFulo(s).value, StrToPais(Strip(s)).value;
      && m.paiLen == 0
      && (forall j :: 0 <= j < |ps| ==> m.paiList[j].paiNum == ps[j].paiNum)
      && (forall j :: |ps| <= j < 4 ==> m.paiList[j] == Blank)
      && (m.mentsuType == Minkan <==> |ps| == 4 && HasMarker(s))
      && (m.mentsuType == Ankan <==> |ps| == 4 && !HasMarker(s))
      && (m.mentsuType == Koutsu <==> |ps| < 4 && m.paiList[0].paiNum == m.paiList[1].paiNum)
      && (m.mentsuType == Shuntsu <==> |ps| < 4 && m.paiList[0].paiNum != m.paiList[1].paiNum)
      && (!HasMarker(s) ==> forall j :: 0 <= j < 4 ==> m.paiList[j].flag == FlagNone)
  {
    FuloFromReadsTiles(s, 0, FuloScan(NoSlots, 0, false));
  }

  /** The scan state after reading the tile of kind `k`. */
  function Put(st: FuloScan, k: nat): FuloScan
    requires st.index < 4
  {
    st.(slots := st.slots[st.index := st.slots[st.index].(paiNum := k)], index := st.index + 1)
  }

  /** The scan state after reading a marker. */
  function Mark(st: FuloScan, f: Flag): FuloScan
    requires 0 < st.index <= 4
  {
    st.(slots := st.slots[st.index - 1 := st.slots[st.index - 1].(flag := f)], naki := true)
  }

  const Start: FuloScan := FuloScan(NoSlots, 0, false)

  /** A marker flags the tile before it: a run called from the left. */
  lemma StrToFuloChii()
    ensures StrToFulo("m3-45") ==
      Some(Mentsu([MentsuPai(2, 0, FlagKamicha), MentsuPai(3, 0, FlagNone), MentsuPai(4, 0, FlagNone), Blank], 0, Shuntsu))
  {
    var a1 := Put(Start, 2);
    var a2 := Mark(a1, FlagKamicha);
    var a3 := Put(a2, 3);
    var a4 := Put(a3, 4);
    assert FuloFrom("5", 0, a3) == Some(a4);
    assert FuloFrom("45", 0, a2) == Some(a4);
    assert FuloFrom("-45", 0, a1) == Some(a4);
    assert FuloFrom("3-45", 0, Start) == Some(a4);
    assert FuloFrom("m3-45", 0, Start) == Some(a4);
    assert a4.index == 3;
    assert a4.slots == [MentsuPai(2, 0, FlagKamicha), MentsuPai(3, 0, FlagNone), MentsuPai(4, 0, FlagNone), Blank];
  }

  /** A triplet called from the opposite player. */
  lemma StrToFuloPon()
    ensures StrToFulo("p55=5") ==
      Some(Mentsu([MentsuPai(13, 0, FlagNone), MentsuPai(13, 0, FlagToimen), MentsuPai(13, 0, FlagNone), Blank], 0, Koutsu))
  {
    var b1 := Put(Start, 13);
    var b2 := Put(b1, 13);
    var b3 := Mark(b2, FlagToimen);
    var b4 := Put(b3, 13);
    assert FuloFrom("5", 1, b3) == Some(b4);
    assert FuloFrom("=5", 1, b2) == Some(b4);
    assert FuloFrom("5=5", 1, b1) == Some(b4);
    assert FuloFrom("55=5", 1, Start) == Some(b4);
    assert FuloFrom("p55=5", 0, Start) == Some(b4);
    assert b4.index == 3;
    assert b4.slots == [MentsuPai(13, 0, FlagNone), MentsuPai(13, 0, FlagToimen), MentsuPai(13, 0, FlagNone), Blank];
  }

  /** Four tiles without a marker make a closed kan. */
  lemma StrToFuloKan()
    ensures StrToFulo("z1111") ==
      Some(Mentsu([MentsuPai(27, 0, FlagNone), MentsuPai(27, 0, FlagNone), MentsuPai(27, 0, FlagNone), MentsuPai(27, 0, FlagNone)], 0, Ankan))
  {
    var a1 := Put(Start, 27);
    var a2 := Put(a1, 27);
    var a3 := Put(a2, 27);
    var a4 := Put(a3, 27);
    assert FuloFrom("1", 3, a3) == Some(a4);
    assert FuloFrom("11", 3, a2) == Some(a4);
    assert FuloFrom("111", 3, a1) == Some(a4);
    assert FuloFrom("1111", 3, Start) == Some(a4);
    assert FuloFrom("z1111", 0, Start) == Some(a4);
    assert a4.index == 4 && !a4.naki;
    assert a4.slots == [MentsuPai(27, 0, FlagNone), MentsuPai(27, 0, FlagNone), MentsuPai(27, 0, FlagNone), MentsuPai(27, 0, FlagNone)];
  }

  /** A marked kan is an open kan. */
  lemma StrToFuloOpenKan()
    ensures StrToFulo("s777+7").Some? && StrToFulo("s777+7").value.mentsuType == Minkan
  {
    var b1 := Put(Start, 24);
    var b2 := Put(b1, 24);
    var b3 := Put(b2, 24);
    var b4 := Mark(b3, FlagSimocha);
    var b5 := Put(b4, 24);
    assert FuloFrom("7", 2, b4) == Some(b5);
    assert FuloFrom("+7", 2, b3) == Some(b5);
    assert FuloFrom("7+7", 2, b2) == Some(b5);
    assert FuloFrom("77+7", 2, b1) == Some(b5);
    assert FuloFrom("777+7", 2, Start) == Some(b5);
    assert FuloFrom("s777+7", 0, Start) == Some(b5);
  }

  /** A marker before any tile, or a fifth tile, is out of bounds. */
  lemma StrToFuloOutOfBounds()
    ensures StrToFulo("m-123") == None
    ensures StrToFulo("m11111") == None
  {
    assert FuloFrom("-123", 0, Start) == None;
    var a1 := Put(Start, 0);
    var a2 := Put(a1, 0);
    var a3 := Put(a2, 0);
    var a4 := Put(a3, 0);
    assert FuloFrom("1", 0, a4) == None;
    assert FuloFrom("11", 0, a3) == None;
    assert FuloFrom("111", 0, a2) == None;
    assert FuloFrom("1111", 0, a1) == None;
    assert FuloFrom("11111", 0, Start) == None;
  }

  /** `str::split` on one separator character. */
  function Split(s: string, sep: char): (r: seq<string>)
    ensures |r| >= 1
    ensures forall i :: 0 <= i < |r| ==> sep !in r[i]
  {
    if |s| == 0 then [[]]
    else
      var t := Split(s[1..], sep);
      if s[0] == sep then [[]] + t
      else [[s[0]] + t[0]] + t[1..]
  }

  /** The fields joined back with the separator. */
  function Join(parts: seq<string>, sep: char): string
    requires |parts| >= 1
  {
    if |parts| == 1 then parts[0] else parts[0] + [sep] + Join(parts[1..], sep)
  }

  lemma {:induction false} JoinSplit(s: string, sep: char)
    ensures Join(Split(s, sep), sep) == s
  {
    if |s| > 0 {
      JoinSplit(s[1..], sep);
      var t := Split(s[1..], sep);
      if s[0] == sep {
        assert ([[]] + t)[1..] == t;
        assert s == [] + [sep] + s[1..];
      } else {
        var r := [[s[0]] + t[0]] + t[1..];
        if |t| == 1 {
          assert s == [s[0]] + s[1..];
        } else {
          assert r[1..] == t[1..];
          assert s == [s[0]] + s[1..];
        }
      }
    }
  }

  lemma {:induction false} SplitJoin(parts: seq<string>, sep: char)
    requires |parts| >= 1 && forall i :: 0 <= i < |parts| ==> sep !in parts[i]
    ensures Split(Join(parts, sep), sep) == parts
    decreases |parts|, |parts[0]|
  {
    var p := parts[0];
    if |p| == 0 {
      if |parts| > 1 {
        var s := Join(parts, sep);
        assert s == [sep] + Join(parts[1..], sep);
        assert s[1..] == Join(parts[1..], sep);
        SplitJoin(parts[1..], sep);
      }
    } else {
      var s := Join(parts, sep);
      var parts' := [p[1..]] + parts[1..];
      assert sep !in p[1..] by {
        forall i | 0 <= i < |p[1..]| ensures p[1..][i] != sep { assert p[1..][i] == p[i + 1]; }
      }
      SplitJoin(parts', sep);
      if |parts| == 1 {
        assert s[1..] == Join(parts', sep);
      } else {
        assert parts'[1..] == parts[1..];
        assert s[1..] == Join(parts', sep);
      }
      assert s[0] == p[0] && p[0] != sep;
      assert [p[0]] + p[1..] == p;
    }
  }

  /** The two fields `parse_tehai_string` writes. */
  datatype ParquetHand = ParquetHand(tehai: seq<Pai>, fulo: seq<Mentsu>)

  /** Every field read as one meld, in order. */
  function StrsToFulo(fields: seq<string>): (r: Option<seq<Mentsu>>)
    ensures r.Some? <==> forall i :: 0 <= i < |fields| ==> StrToFulo(fields[i]).Some?
    ensures r.Some? ==> |r.value| == |fields| && forall i :: 0 <= i < |fields| ==> r.value[i] == StrToFulo(fields[i]).value
  {
    if |fields| == 0 then Some([])
    else match StrToFulo(fields[0])
      case None => None
      case Some(m) =>
        match StrsToFulo(fields[1..])
        case None => None
        case Some(rest) => Some([m] + rest)
  }

  /** `ParquetAgari::parse_tehai_string`: the first comma field is the hand;
      every later field is appended to the melds already held. */
  function ParseTehaiString(h: ParquetHand, s: string): (r: Option<ParquetHand>)
    ensures var fields := Split(s, ',');
      r.Some? <==> StrToPais(fields[0]).Some? && forall i :: 1 <= i < |fields| ==> StrToFulo(fields[i]).Some?
    ensures r.Some? ==>
      var fields := Split(s, ',');
      && r.value.tehai == StrToPais(fields[0]).value
      && |r.value.fulo| == |h.fulo| + |fields| - 1
      && r.value.fulo[..|h.fulo|] == h.fulo
      && forall i :: 1 <= i < |fields| ==> r.value.fulo[|h.fulo| + i - 1] == StrToFulo(fields[i]).value
  {
    var fields := Split(s, ',');
    match StrToPais(fields[0])
    case None => None
    case Some(tehai) =>
      match StrsToFulo(fields[1..])
      case None =>
        assert exists i :: 0 <= i < |fields[1..]| && StrToFulo(fields[1..][i]).None?;
        None
      case Some(fs) =>
        assert forall i :: 1 <= i < |fields| ==> fields[i] == fields[1..][i - 1];
        Some(ParquetHand(tehai, h.fulo + fs))
  }

  /** A hand string and meld strings joined with commas read back as that
      hand and those melds, appended after the existing ones. */
  lemma ParseTehaiJoined(h: ParquetHand, hand: string, melds: seq<string>)
    requires ',' !in hand && forall i :: 0 <= i < |melds| ==> ',' !in melds[i]
    requires StrToPais(hand).Some? && forall i :: 0 <= i < |melds| ==> StrToFulo(melds[i]).Some?
    ensures ParseTehaiString(h, Join([hand] + melds, ',')).Some?
    ensures ParseTehaiString(h, Join([hand] + melds, ',')).value.tehai == StrToPais(hand).value
    ensures |ParseTehaiString(h, Join([hand] + melds, ',')).value.fulo| == |h.fulo| + |melds|
    ensures forall i :: 0 <= i < |melds| ==>
      ParseTehaiString(h, Join([hand] + melds, ',')).value.fulo[|h.fulo| + i] == StrToFulo(melds[i]).value
  {
    var parts := [hand] + melds;
    forall i | 0 <= i < |parts| ensures ',' !in parts[i] {
      if i > 0 { assert parts[i] == melds[i - 1]; }
    }
    SplitJoin(parts, ',');
    forall i | 1 <= i < |parts| ensures StrToFulo(parts[i]).Some? {
      assert parts[i] == melds[i - 1];
    }
    var r := ParseTehaiString(h, Join(parts, ','));
    forall i | 0 <= i < |melds|
      ensures r.value.fulo[|h.fulo| + i] == StrToFulo(melds[i]).value
    {
      assert parts[i + 1] == melds[i];
      assert |h.fulo| + (i + 1) - 1 == |h.fulo| + i;
    }
  }

  /** A `u32` column value. */
  type U32 = v: nat | v < 0x1_0000_0000

  /** The packed tile number of the dora, machipai and uradora columns:
      `pai_num = (v >> 2) as u8`, `id = (v & 3) as u8`. */
  function DecodePacked(v: U32): (p: Pai)
    ensures p.paiNum < 256 && p.id < 4
  {
    Pai((v / 4) % 256, v % 4)
  }

  /** The packed number of a tile: four ids per kind. */
  function EncodePacked(p: Pai): (v: nat)
    requires p.id < 4
  {
    p.paiNum * 4 + p.id
  }

  /** Decoding inverts packing for every kind that fits in `u8`, and packing
      inverts decoding below 1024; above that the kind is truncated. */
  lemma PackedRoundTrip(p: Pai, v: U32)
    requires p.id < 4 && p.paiNum < 256
    ensures EncodePacked(p) < 0x1_0000_0000 && DecodePacked(EncodePacked(p)) == p
    ensures v < 1024 ==> EncodePacked(DecodePacked(v)) == v
    ensures v >= 1024 ==> EncodePacked(DecodePacked(v)) == v % 1024
  {
    var e := p.paiNum * 4 + p.id;
    assert e / 4 == p.paiNum && e % 4 == p.id;
    var q, r := v / 4, v % 4;
    assert v == 1024 * (q / 256) + (4 * (q % 256) + r);
    assert 0 <= 4 * (q % 256) + r < 1024;
    assert v % 1024 == 4 * (q % 256) + r;
  }

  /** Deck numbers below 136 decode to the 34 kinds with ids 0..3. */
  lemma PackedDeckNumbers(v: U32)
    requires v < 136
    ensures IsValid(DecodePacked(v)) && DecodePacked(v).paiNum == v / 4
  {
  }

  /** Every character is a suit letter or a digit that denotes a tile in
      the suit in force where it stands. */
  predicate Readable(s: string, suit: nat)
    requires suit < 4
  {
    forall i :: 0 <= i < |s| ==> s[i] in Colors || TileKind(SuitAfter(s[..i], suit), s[i]).Some?
  }

  /** The suit after one character: a letter selects its suit. */
  function SuitStep(c: char, suit: nat): (r: nat)
    requires suit < 4
    ensures r < 4
  {
    match SuitLetter(c)
    case Some(t) => t
    case None => suit
  }

  lemma ReadableCons(s: string, suit: nat)
    requires suit < 4 && |s| > 0
    ensures Readable(s, suit) <==>
      (s[0] in Colors || TileKind(suit, s[0]).Some?) && Readable(s[1..], SuitStep(s[0], suit))
  {
    var u := SuitStep(s[0], suit);
    forall i | 1 <= i < |s|
      ensures SuitAfter(s[..i], suit) == SuitAfter(s[1..][..i - 1], u)
    {
      SuitAfterCons(s[..i], suit);
      assert s[..i][1..] == s[1..][..i - 1];
    }
    if Readable(s[1..], u) && (s[0] in Colors || TileKind(suit, s[0]).Some?) {
      forall i | 0 <= i < |s|
        ensures s[i] in Colors || TileKind(SuitAfter(s[..i], suit), s[i]).Some?
      {
        if i > 0 {
          assert s[1..][i - 1] == s[i];
        } else {
          assert s[..0] == [];
        }
      }
    }
    if Readable(s, suit) {
      assert s[..0] == [];
      forall j | 0 <= j < |s[1..]|
        ensures s[1..][j] in Colors || TileKind(SuitAfter(s[1..][..j], u), s[1..][j]).Some?
      {
        assert s[1..][j] == s[j + 1];
      }
    }
  }

  /** Reading fails exactly when some character is neither a suit letter
      nor a digit valid in the suit in force (a `0` in the man suit). */
  lemma {:induction false} PaisFromSome(s: string, suit: nat)
    requires suit < 4
    ensures PaisFrom(s, suit).Some? <==> Readable(s, suit)
    decreases |s|
  {
    if |s| > 0 {
      ReadableCons(s, suit);
      PaisFromSome(s[1..], SuitStep(s[0], suit));
    }
  }
}
