/** Helpers on the table's fixed-size buffers: the 256-byte string held as
    eight 32-byte chunks, and the 136-tile wall held as four segments of 32
    and one of 8. */
module FbsUtils {
  import opened Wrappers
  import opened Tiles

  type Byte = b: nat | b < 256

  /** `n` default (zero) bytes. */
  function ZeroBytes(n: nat): (r: seq<Byte>)
    ensures |r| == n && forall i :: 0 <= i < n ==> r[i] == 0
  {
    seq(n, _ => 0)
  }

  /** One 32-byte field of `FixedStringT`. */
  type Chunk = s: seq<Byte> | |s| == 32 witness ZeroBytes(32)

  const ZeroChunk: Chunk := ZeroBytes(32)

  /** `FixedStringT`: fields `n1` .. `n8`. */
  datatype FixedString = FixedString(n1: Chunk, n2: Chunk, n3: Chunk, n4: Chunk,
                                     n5: Chunk, n6: Chunk, n7: Chunk, n8: Chunk)

  function Chunks(f: FixedString): (r: seq<Chunk>)
    ensures |r| == 8
  {
    [f.n1, f.n2, f.n3, f.n4, f.n5, f.n6, f.n7, f.n8]
  }

  /** Chunks laid end to end. */
  function Flatten(cs: seq<Chunk>): (r: seq<Byte>)
    ensures |r| == 32 * |cs|
  {
    if |cs| == 0 then [] else cs[0] + Flatten(cs[1..])
  }

  lemma {:induction false} FlattenIndex(cs: seq<Chunk>, p: nat)
    requires p < 32 * |cs|
    ensures p / 32 < |cs| && Flatten(cs)[p] == cs[p / 32][p % 32]
  {
    if p >= 32 {
      FlattenIndex(cs[1..], p - 32);
      assert (p - 32) / 32 == p / 32 - 1 && (p - 32) % 32 == p % 32;
    }
  }

  /** What `from` puts in chunk `i`: the `i`-th 32 bytes of the input when
      they are all there, the default zeros otherwise. */
  function ChunkOf(src: seq<Byte>, i: nat): Chunk {
    if 32 * i + 32 <= |src| then src[32 * i .. 32 * i + 32] else ZeroChunk
  }

  /** Chunks `k` .. 7 of `from`: it stops at the first missing chunk, and a
      short chunk panics in `copy_from_slice`. */
  function FromChunks(src: seq<Byte>, k: nat): (r: Option<seq<Chunk>>)
    requires k <= 8
    ensures r.Some? <==> 32 * k >= |src| || |src| % 32 == 0 || |src| >= 256
    ensures r.Some? ==> |r.value| == 8 - k && forall j :: 0 <= j < 8 - k ==> r.value[j] == ChunkOf(src, k + j)
    decreases 8 - k
  {
    if k == 8 then Some([])
    else if 32 * k >= |src| then Some(seq(8 - k, _ => ZeroChunk))
    else if |src| < 32 * k + 32 then None
    else
      match FromChunks(src, k + 1)
      case None => None
      case Some(rest) => Some([src[32 * k .. 32 * k + 32]] + rest)
  }

  /** `FixedStringT::from(&[u8])`. */
  function From(src: seq<Byte>): (r: Option<FixedString>)
    ensures r.Some? <==> |src| % 32 == 0 || |src| >= 256
    ensures r.Some? ==> Chunks(r.value) == FromChunks(src, 0).value
  {
    match FromChunks(src, 0)
    case None => None
    case Some(cs) => Some(FixedString(cs[0], cs[1], cs[2], cs[3], cs[4], cs[5], cs[6], cs[7]))
  }

  /** `Into<Vec<u8>>`: `n1` .. `n8` in order. */
  function Into(f: FixedString): (r: seq<Byte>)
    ensures |r| == 256
  {
    Flatten(Chunks(f))
  }

  /** A string read in and written out gives back its first 256 bytes,
      padded with zeros when shorter. */
  lemma FromInto(src: seq<Byte>)
    requires |src| % 32 == 0 || |src| >= 256
    ensures From(src).Some?
    ensures forall p :: 0 <= p < 256 ==> Into(From(src).value)[p] == if p < |src| then src[p] else 0
  {
    forall p | 0 <= p < 256 ensures Into(From(src).value)[p] == if p < |src| then src[p] else 0 {
      FromIntoAt(src, p);
    }
  }

  lemma FromIntoAt(src: seq<Byte>, p: nat)
    requires |src| % 32 == 0 || |src| >= 256
    requires p < 256
    ensures From(src).Some? && Into(From(src).value)[p] == if p < |src| then src[p] else 0
  {
    var f := From(src).value;
    FlattenIndex(Chunks(f), p);
    var i, q := p / 32, p % 32;
    DivMod32(p);
    assert Chunks(f)[i] == ChunkOf(src, i);
    if 32 * i + 32 <= |src| {
      assert ChunkOf(src, i)[q] == src[32 * i + q];
    } else {
      ChunkBeyond(p, |src|);
    }
  }

  lemma DivMod32(p: nat)
    ensures p == 32 * (p / 32) + p % 32 && 0 <= p % 32 < 32
  {
  }

  /** A byte in a chunk that ends past a whole number of chunks lies past them. */
  lemma ChunkBeyond(p: nat, n: nat)
    requires n % 32 == 0 && 32 * (p / 32) + 32 > n
    ensures p >= n
  {
    DivMod32(p);
    DivMod32(n);
  }

  /** The two readings of `FromInto`: a multiple of 32 up to 256 bytes comes
      back followed by zeros, and a longer input comes back cut to 256. */
  lemma FromIntoShapes(src: seq<Byte>)
    ensures |src| % 32 == 0 && |src| <= 256 ==>
      From(src).Some? && Into(From(src).value) == src + ZeroBytes(256 - |src|)
    ensures |src| >= 256 ==> From(src).Some? && Into(From(src).value) == src[..256]
  {
    if |src| % 32 == 0 || |src| >= 256 {
      FromInto(src);
    }
  }

  /** Writing out and reading back in gives the same string. */
  lemma IntoFrom(f: FixedString)
    ensures From(Into(f)) == Some(f)
  {
    var t := Into(f);
    var cs := FromChunks(t, 0).value;
    forall i | 0 <= i < 8 ensures cs[i] == Chunks(f)[i] {
      assert cs[i] == t[32 * i .. 32 * i + 32];
      forall q | 0 <= q < 32 ensures t[32 * i + q] == Chunks(f)[i][q] {
        FlattenIndex(Chunks(f), 32 * i + q);
        assert (32 * i + q) / 32 == i && (32 * i + q) % 32 == q;
      }
    }
  }

  /** One 32-tile segment of the wall, and the last one of 8. */
  type Seg32 = s: seq<Pai> | |s| == 32 witness DefaultPais(32)
  type Seg8 = s: seq<Pai> | |s| == 8 witness DefaultPais(8)

  function DefaultPais(n: nat): (r: seq<Pai>)
    ensures |r| == n
  {
    seq(n, _ => DefaultPai)
  }

  /** `BahaiT`: the wall in segments `n1` .. `n5`. */
  datatype Bahai = Bahai(n1: Seg32, n2: Seg32, n3: Seg32, n4: Seg32, n5: Seg8)

  const WALL: nat := 136

  /** The wall in order. */
  function Wall(b: Bahai): (r: seq<Pai>)
    ensures |r| == WALL
  {
    b.n1 + b.n2 + b.n3 + b.n4 + b.n5
  }

  /** `BahaiT::get`: the segment the index falls in, at the index less the
      segment's start. */
  function Get(b: Bahai, index: nat): (r: Option<Pai>)
    ensures r.Some? <==> index < WALL
    ensures r.Some? ==> r.value == Wall(b)[index]
  {
    if index < 32 then Some(b.n1[index])
    else if index < 64 then Some(b.n2[index - 32])
    else if index < 96 then Some(b.n3[index - 64])
    else if index < 128 then Some(b.n4[index - 96])
    else if index < 136 then Some(b.n5[index - 128])
    else None
  }

  /** `Iterator::position`: the first index holding `t`. */
  function Position(s: seq<Pai>, t: Pai): (r: Option<nat>)
    ensures r.Some? ==> r.value < |s| && s[r.value] == t && forall j :: 0 <= j < r.value ==> s[j] != t
    ensures r.None? <==> t !in s
  {
    if |s| == 0 then None
    else if s[0] == t then Some(0)
    else match Position(s[1..], t)
      case None => None
      case Some(i) => Some(i + 1)
  }

  /** `BahaiT::search`: segment by segment, offset by the segment's start. */
  function Search(b: Bahai, t: Pai): (r: Option<nat>) {
    match Position(b.n1, t)
    case Some(i) => Some(i)
    case None =>
      match Position(b.n2, t)
      case Some(i) => Some(i + 32)
      case None =>
        match Position(b.n3, t)
        case Some(i) => Some(i + 64)
        case None =>
          match Position(b.n4, t)
          case Some(i) => Some(i + 96)
          case None =>
            match Position(b.n5, t)
            case Some(i) => Some(i + 128)
            case None => None
  }

  /** `search` finds the first occurrence of the tile in the whole wall, and
      fails exactly when the tile is absent. */
  lemma SearchFirst(b: Bahai, t: Pai)
    ensures Search(b, t).None? <==> t !in Wall(b)
    ensures Search(b, t).Some? ==>
      var i := Search(b, t).value;
      i < WALL && Wall(b)[i] == t && forall j :: 0 <= j < i ==> Wall(b)[j] != t
  {
    SearchIsPosition(b, t);
  }

  /** Searching segment by segment is searching the whole wall. */
  lemma SearchIsPosition(b: Bahai, t: Pai)
    ensures Search(b, t) == Position(Wall(b), t)
  {
    var a1 := b.n1;
    var a2 := a1 + b.n2;
    var a3 := a2 + b.n3;
    var a4 := a3 + b.n4;
    PositionAppend(a1, b.n2, t);
    PositionAppend(a2, b.n3, t);
    PositionAppend(a3, b.n4, t);
    PositionAppend(a4, b.n5, t);
  }

  /** The first occurrence in `a + c`: in `a` if there is one, otherwise in
      `c` shifted by `|a|`. */
  lemma {:induction false} PositionAppend(a: seq<Pai>, c: seq<Pai>, t: Pai)
    ensures Position(a + c, t) ==
      match Position(a, t)
      case Some(i) => Some(i)
      case None =>
        match Position(c, t)
        case Some(i) => Some(i + |a|)
        case None => None
  {
    if |a| > 0 {
      assert (a + c)[0] == a[0] && (a + c)[1..] == a[1..] + c;
      PositionAppend(a[1..], c, t);
    } else {
      assert a + c == c;
    }
  }

  /** `get(search(t)) == t`. */
  lemma GetSearch(b: Bahai, t: Pai)
    requires Search(b, t).Some?
    ensures Get(b, Search(b, t).value) == Some(t)
  {
    SearchFirst(b, t);
  }

  /** The deck `create_shuffled` fills before shuffling: for each kind
      0..33, ids 1 to 4. */
  function Deck(): (d: seq<Pai>)
    ensures |d| == WALL
  {
    seq(136, (i: nat) => Pai(i / 4, i % 4 + 1))
  }

  /** The deck holds each kind with ids 1..4, every such tile exactly once. */
  lemma DeckContents()
    ensures forall p :: p in Deck() <==> p.paiNum < KINDS && 1 <= p.id <= 4
    ensures forall i, j :: 0 <= i < j < WALL ==> Deck()[i] != Deck()[j]
  {
    var d := Deck();
    forall p: Pai | p.paiNum < KINDS && 1 <= p.id <= 4 ensures p in d {
      var i := p.paiNum * 4 + p.id - 1;
      assert i / 4 == p.paiNum && i % 4 + 1 == p.id;
      assert d[i] == p;
    }
    forall i, j | 0 <= i < j < WALL ensures d[i] != d[j] {
      if i / 4 == j / 4 {
        assert i % 4 != j % 4;
      }
    }
  }

  /** A deck id is 1..4 where `is_valid` wants 0..3: the fourth copy of every
      kind fails it. */
  lemma DeckAgainstIsValid()
    ensures forall i :: 0 <= i < WALL ==> (IsValid(Deck()[i]) <==> Deck()[i].id < 4)
    ensures Pai(0, 4) in Deck() && !IsValid(Pai(0, 4))
  {
    assert Deck()[3] == Pai(0, 4);
  }

  /** `create_shuffled` with the shuffle's outcome as a parameter: the
      shuffled tiles are copied into the segments in order. */
  function CreateShuffled(order: seq<Pai>): (b: Bahai)
    requires |order| == WALL
    ensures Wall(b) == order
  {
    Bahai(order[0..32], order[32..64], order[64..96], order[96..128], order[128..136])
  }

  /** A shuffled wall holds the deck, so every deck tile is found, and
      every index below 136 can be read. */
  lemma ShuffledWall(order: seq<Pai>, t: Pai)
    requires |order| == WALL && multiset(order) == multiset(Deck())
    requires t.paiNum < KINDS && 1 <= t.id <= 4
    ensures multiset(Wall(CreateShuffled(order))) == multiset(Deck())
    ensures Search(CreateShuffled(order), t).Some?
    ensures Get(CreateShuffled(order), WALL - 1).Some?
  {
    DeckContents();
    assert t in multiset(Deck());
    SearchFirst(CreateShuffled(order), t);
  }
}
