/** The 64-bit bitboard of the engine package (src/neuralcheck/bitboard.py):
    squares map to bits with h1 as bit 0 and a8 as bit 63, the opening
    position is held as eight masks, and a table gives each square's mask. */
module Bitboard {
  import opened Pieces
  import opened Bits
  import opened Boards

  /** `_cols2int`: a file's bit column, counted from h = 0 to a = 7. */
  function ColIndex(c: char): (r: Option<nat>)
    ensures r.Some? <==> 'a' <= c <= 'h'
    ensures r.Some? ==> r.value < 8 && r.value == 'h' as int - c as int
  {
    if 'a' <= c <= 'h' then Some(('h' as int - c as int) as nat) else None
  }

  /** `int()` of a one-character string. */
  function Digit(c: char): Option<int>
  {
    if '0' <= c <= '9' then Some(c as int - '0' as int) else None
  }

  /** `get_bitboard_position`: the integer whose one set bit is the square's.
      A short string, an unknown file, a non-digit rank or rank 0 raises;
      rank 9 is accepted and lands beyond bit 63. */
  function BitPosition(position: string): (r: Outcome<nat>)
    ensures r.Ok? <==> |position| >= 2 && 'a' <= position[0] <= 'h' && '1' <= position[1] <= '9'
  {
    if |position| < 2 then Crash
    else
      match ColIndex(position[0])
      case None => Crash
      case Some(col) =>
        match Digit(position[1])
        case None => Crash
        case Some(d) =>
          var shift := col + (d - 1) * 8;
          if shift < 0 then Crash else Ok(Pow2(shift))
  }

  /** The name `f'{col}{row}'` of the square on file `f` (a = 0, the order
      of `_cols_str`) and rank `rank`. */
  function Name(f: nat, rank: nat): (s: string)
    requires f < 8 && 1 <= rank <= 9
    ensures |s| == 2 && s[0] as int == 'a' as int + f && s[1] as int == '0' as int + rank
  {
    [('a' as int + f) as char, ('0' as int + rank) as char]
  }

  /** The bit of a square: its column counted from h, eight bits per rank. */
  function BitIndex(f: nat, rank: nat): nat
    requires f < 8 && 1 <= rank
  {
    (7 - f) + 8 * (rank - 1)
  }

  /** Every square of the board maps to a value with exactly its own bit set,
      below bit 64. */
  lemma SquareBit(f: nat, rank: nat)
    requires f < 8 && 1 <= rank <= 8
    ensures BitIndex(f, rank) < 64
    ensures BitPosition(Name(f, rank)) == Ok(Pow2(BitIndex(f, rank)))
    ensures forall k :: HasBit(BitPosition(Name(f, rank)).value, k) <==> k == BitIndex(f, rank)
  {
    forall k ensures HasBit(Pow2(BitIndex(f, rank)), k) <==> k == BitIndex(f, rank) {
      Pow2Bit(BitIndex(f, rank), k);
    }
  }

  /** Distinct squares map to distinct bits. */
  lemma SquaresDistinct(f1: nat, r1: nat, f2: nat, r2: nat)
    requires f1 < 8 && 1 <= r1 <= 8 && f2 < 8 && 1 <= r2 <= 8
    requires BitPosition(Name(f1, r1)) == BitPosition(Name(f2, r2))
    ensures f1 == f2 && r1 == r2
  {
    SquareBit(f1, r1);
    SquareBit(f2, r2);
    Pow2Injective(BitIndex(f1, r1), BitIndex(f2, r2));
  }

  /** The sum of the squares' masks; for distinct squares, their union. */
  function Union(names: seq<string>): Outcome<nat>
  {
    if names == [] then Ok(0)
    else
      match (BitPosition(names[0]), Union(names[1..]))
      case (Ok(m), Ok(rest)) => Ok(m + rest)
      case _ => Crash
  }

  // The opening masks the constructor installs, as 64-bit words.
  const Kings: bv64 := 576460752303423496
  const Queens: bv64 := 1152921504606846992
  const Bishops: bv64 := 2594073385365405732
  const Knights: bv64 := 4755801206503243842
  const Rooks: bv64 := 9295429630892703873
  const Pawns: bv64 := 71776119061282560
  const WhiteMask: bv64 := 65535
  const BlackMask: bv64 := 18446462598732840960

  /** `pieces`: the mask of each type letter. */
  function PieceMasks(): (r: map<char, bv64>)
    ensures r.Keys == {'K', 'Q', 'B', 'N', 'R', 'P'}
    ensures forall a, b :: a in r && b in r && a != b ==> r[a] & r[b] == 0
    ensures r['K'] | r['Q'] | r['B'] | r['N'] | r['R'] | r['P'] == WhiteMask | BlackMask
  {
    TypeMasksPartition();
    map['K' := Kings, 'Q' := Queens, 'B' := Bishops, 'N' := Knights, 'R' := Rooks, 'P' := Pawns]
  }

  /** The colour masks are the two home ranks of each side, and disjoint. */
  lemma ColorMasks()
    ensures WhiteMask == 0xFFFF && BlackMask == 0xFFFF_0000_0000_0000
    ensures WhiteMask & BlackMask == 0
  {
  }

  /** The six type masks are pairwise disjoint and together cover exactly the
      squares of the two colour masks. */
  lemma TypeMasksPartition()
    ensures Kings & Queens == 0 && Kings & Bishops == 0 && Kings & Knights == 0 && Kings & Rooks == 0 && Kings & Pawns == 0
    ensures Queens & Bishops == 0 && Queens & Knights == 0 && Queens & Rooks == 0 && Queens & Pawns == 0
    ensures Bishops & Knights == 0 && Bishops & Rooks == 0 && Bishops & Pawns == 0
    ensures Knights & Rooks == 0 && Knights & Pawns == 0
    ensures Rooks & Pawns == 0
    ensures Kings | Queens | Bishops | Knights | Rooks | Pawns == WhiteMask | BlackMask
  {
  }

  /** `get_bitboard_position` on a square name given as a literal. */
  lemma NamedSquare(s: string, f: nat, rank: nat)
    requires f < 8 && 1 <= rank <= 8 && s == Name(f, rank)
    ensures BitPosition(s) == Ok(Pow2(BitIndex(f, rank)))
  {
    SquareBit(f, rank);
  }

  /** The values of the bits on the first, second, seventh and eighth ranks. */
  lemma HomeRankBits(c: nat)
    requires c < 8
    ensures Pow2(8 + c) == 0x100 * Pow2(c)
    ensures Pow2(48 + c) == 0x1_0000_0000_0000 * Pow2(c)
    ensures Pow2(56 + c) == 0x100_0000_0000_0000 * Pow2(c)
  {
    Pow2Byte();
    Pow2Add(8, c);
    Pow2TopRank();
    Pow2Add(56, c);
    Pow2Int();
    Pow2Short();
    Pow2Add(32, 16);
    Pow2Add(48, c);
  }

  /** The king mask is the kings' opening squares e1 and e8. */
  lemma KingsMask()
    ensures Union(["e1", "e8"]) == Ok(Kings as nat)
  {
    NamedSquare("e1", 4, 1);
    NamedSquare("e8", 4, 8);
    HomeRankBits(3);
    assert Pow2(3) == 8;
  }

  /** The queen mask is d1 and d8. */
  lemma QueensMask()
    ensures Union(["d1", "d8"]) == Ok(Queens as nat)
  {
    NamedSquare("d1", 3, 1);
    NamedSquare("d8", 3, 8);
    HomeRankBits(4);
    assert Pow2(4) == 16;
  }

  /** The bishop mask is c1, f1, c8 and f8. */
  lemma BishopsMask()
    ensures Union(["c1", "f1", "c8", "f8"]) == Ok(Bishops as nat)
  {
    NamedSquare("c1", 2, 1);
    NamedSquare("f1", 5, 1);
    NamedSquare("c8", 2, 8);
    NamedSquare("f8", 5, 8);
    HomeRankBits(5);
    HomeRankBits(2);
    assert Pow2(5) == 32 && Pow2(2) == 4;
    assert Union(["c8", "f8"]) == Ok(0x2400_0000_0000_0000);
  }

  /** The knight mask is b1, g1, b8 and g8. */
  lemma KnightsMask()
    ensures Union(["b1", "g1", "b8", "g8"]) == Ok(Knights as nat)
  {
    NamedSquare("b1", 1, 1);
    NamedSquare("g1", 6, 1);
    NamedSquare("b8", 1, 8);
    NamedSquare("g8", 6, 8);
    HomeRankBits(6);
    HomeRankBits(1);
    assert Pow2(6) == 64 && Pow2(1) == 2;
    assert Union(["b8", "g8"]) == Ok(0x4200_0000_0000_0000);
  }

  /** The rook mask is the four corners. */
  lemma RooksMask()
    ensures Union(["a1", "h1", "a8", "h8"]) == Ok(Rooks as nat)
  {
    NamedSquare("a1", 0, 1);
    NamedSquare("h1", 7, 1);
    NamedSquare("a8", 0, 8);
    NamedSquare("h8", 7, 8);
    HomeRankBits(7);
    HomeRankBits(0);
    assert Pow2(7) == 128;
    assert Union(["a8", "h8"]) == Ok(0x8100_0000_0000_0000);
  }

  /** A key of `positional_masks`: files a..h, ranks 1..7. */
  predicate IsMaskKey(s: string)
  {
    |s| == 2 && 'a' <= s[0] <= 'h' && '1' <= s[1] <= '7'
  }

  /** The scan order of `active_positions`: by file a..h, then by rank. */
  function Order(s: string): int
  {
    if |s| < 2 then 0 else (s[0] as int - 'a' as int) * 8 + (s[1] as int - '0' as int)
  }

  /** The bit of a mask key. */
  function KeyBit(s: string): nat
    requires IsMaskKey(s)
  {
    ('h' as int - s[0] as int) + 8 * (s[1] as int - '1' as int)
  }

  lemma NameKey(f: nat, rank: nat)
    requires f < 8 && 1 <= rank <= 7
    ensures IsMaskKey(Name(f, rank)) && KeyBit(Name(f, rank)) == BitIndex(f, rank)
    ensures Order(Name(f, rank)) == f * 8 + rank
  {
  }

  /** The inner loop of the constructor's table fill: the masks of file `f`,
      ranks 1 to 7, added to those of the files before it. */
  method AddFileMasks(masks0: map<string, nat>, f: nat) returns (masks: map<string, nat>)
    requires f < 8
    requires forall s {:trigger s in masks0} :: s in masks0 ==> IsMaskKey(s) && BitPosition(s) == Ok(masks0[s]) && Order(s) <= f * 8
    ensures forall s {:trigger s in masks} :: s in masks ==> IsMaskKey(s) && BitPosition(s) == Ok(masks[s]) && Order(s) <= f * 8 + 8
    ensures forall s {:trigger s in masks0} :: s in masks0 ==> s in masks
    ensures forall rank :: 1 <= rank <= 7 ==> Name(f, rank) in masks
    ensures |masks| == |masks0| + 7
  {
    masks := masks0;
    var rank := 1;
    while rank < 8
      invariant 1 <= rank <= 8
      invariant forall s {:trigger s in masks} :: s in masks ==> IsMaskKey(s) && BitPosition(s) == Ok(masks[s]) && Order(s) < f * 8 + rank
      invariant forall s {:trigger s in masks0} :: s in masks0 ==> s in masks
      invariant forall r :: 1 <= r < rank ==> Name(f, r) in masks
      invariant |masks| == |masks0| + rank - 1
    {
      var position := Name(f, rank);
      NameKey(f, rank);
      assert position !in masks;
      masks := masks[position := BitPosition(position).value];
      rank := rank + 1;
    }
  }

  /** The loop of the constructor that fills `positional_masks`: every square
      of ranks 1 to 7 mapped to its `get_bitboard_position`. */
  method PositionalMasks() returns (masks: map<string, nat>)
    ensures forall s {:trigger s in masks} :: s in masks ==> IsMaskKey(s) && BitPosition(s) == Ok(masks[s])
    ensures forall f, rank :: 0 <= f < 8 && 1 <= rank <= 7 ==> Name(f, rank) in masks
    ensures |masks| == 56
  {
    masks := map[];
    var f := 0;
    while f < 8
      invariant 0 <= f <= 8
      invariant forall s {:trigger s in masks} :: s in masks ==> IsMaskKey(s) && BitPosition(s) == Ok(masks[s]) && Order(s) <= f * 8
      invariant forall g, rank :: 0 <= g < f && 1 <= rank <= 7 ==> Name(g, rank) in masks
      invariant |masks| == 7 * f
    {
      masks := AddFileMasks(masks, f);
      f := f + 1;
    }
  }

  class ChessBitboard {
    var board: Board
    var kings: bv64
    var queens: bv64
    var bishops: bv64
    var knights: bv64
    var rooks: bv64
    var pawns: bv64
    var white: bv64
    var black: bv64
    var pieces: map<char, bv64>
    var positionalMasks: map<string, nat>

    /** `ChessBitboard.__init__`. */
    constructor(board: Board)
      ensures this.board == board
      ensures kings == Kings && queens == Queens && bishops == Bishops && knights == Knights
      ensures rooks == Rooks && pawns == Pawns && white == WhiteMask && black == BlackMask
      ensures pieces == PieceMasks()
      ensures forall s {:trigger s in positionalMasks} :: s in positionalMasks ==> IsMaskKey(s) && BitPosition(s) == Ok(positionalMasks[s])
      ensures forall f, rank :: 0 <= f < 8 && 1 <= rank <= 7 ==> Name(f, rank) in positionalMasks
    {
      var masks := PositionalMasks();
      this.board := board;
      kings := Kings;
      queens := Queens;
      bishops := Bishops;
      knights := Knights;
      rooks := Rooks;
      pawns := Pawns;
      white := WhiteMask;
      black := BlackMask;
      pieces := PieceMasks();
      positionalMasks := masks;
    }

    /** `active_positions`: the rank 1..7 squares whose bit is set in
        `bitmap`, in file order and then rank order. */
    method ActivePositions(bitmap: nat) returns (candidates: seq<string>)
      ensures forall k :: 0 <= k < |candidates| ==> IsMaskKey(candidates[k]) && HasBit(bitmap, KeyBit(candidates[k]))
      ensures forall f, rank :: 0 <= f < 8 && 1 <= rank <= 7 && HasBit(bitmap, BitIndex(f, rank)) ==> Name(f, rank) in candidates
      ensures forall a, b :: 0 <= a < b < |candidates| ==> Order(candidates[a]) < Order(candidates[b])
    {
      candidates := [];
      var f := 0;
      while f < 8
        invariant 0 <= f <= 8
        invariant forall k :: 0 <= k < |candidates| ==> IsMaskKey(candidates[k]) && HasBit(bitmap, KeyBit(candidates[k])) && Order(candidates[k]) < f * 8 + 1
        invariant forall g, rank :: 0 <= g < f && 1 <= rank <= 7 && HasBit(bitmap, BitIndex(g, rank)) ==> Name(g, rank) in candidates
        invariant forall a, b :: 0 <= a < b < |candidates| ==> Order(candidates[a]) < Order(candidates[b])
      {
        var rank := 1;
        while rank < 8
          invariant 1 <= rank <= 8
          invariant forall k :: 0 <= k < |candidates| ==> IsMaskKey(candidates[k]) && HasBit(bitmap, KeyBit(candidates[k])) && Order(candidates[k]) < f * 8 + rank
          invariant forall g, r :: 0 <= g < f && 1 <= r <= 7 && HasBit(bitmap, BitIndex(g, r)) ==> Name(g, r) in candidates
          invariant forall r :: 1 <= r < rank && HasBit(bitmap, BitIndex(f, r)) ==> Name(f, r) in candidates
          invariant forall a, b :: 0 <= a < b < |candidates| ==> Order(candidates[a]) < Order(candidates[b])
        {
          var position := Name(f, rank);
          SquareBit(f, rank);
          NameKey(f, rank);
          var mask := BitPosition(position).value;
          AndPow2(BitIndex(f, rank), bitmap);
          if BitAnd(mask, bitmap) > 0 {
            candidates := candidates + [position];
          }
          rank := rank + 1;
        }
        f := f + 1;
      }
    }
  }
}
