/** The C copy of the square-to-bit mapping (src/bitboard.c): the file and
    rank are found by scanning two lookup strings, then one double shift. */
module BitboardC {
  import opened Pieces
  import opened Bits
  import Bitboard

  /** `(1LL << col) << (row * 8)` for the column and row the scans find is
      the word with bit `col + 8 * row`, which read unsigned is
      2^(col + 8 * row), as long as that bit is inside the word. */
  lemma DoubleShift(col: nat, row: nat)
    requires col <= 8 && row < 8 && col + 8 * row < 64
    ensures (((1 as bv64) << (col as bv8)) << ((row as bv8) * 8)) as nat == Pow2(col + 8 * row)
  {
    var c := col as bv8;
    var w := row as bv8;
    assert ((1 as bv64) << c) << (w * 8) == Bit(c + w * 8);
    assert (c + w * 8) as nat == col + 8 * row;
    BitValue(c + w * 8);
  }

  /** `getBitboardPosition`. The scans leave 8 for a character not found.
      A rank outside 1..8 then shifts by 64, and a file outside a..h on
      rank 8 shifts bit 8 by 56: both leave the 64-bit word, undefined
      behaviour in C, so the rank must be found and an unknown file needs a
      rank below 8. On a valid square the result is the bit pattern the
      engine's copy computes; for a8 it is bit 63, a signed shift into the
      sign bit that ISO C also leaves undefined and that is modelled as the
      two's-complement pattern. An unknown file on ranks 1..7, which the
      Python copy refuses, gives bit 8 * rank: the h-file square one rank up. */
  method GetBitboardPosition(position: string) returns (r: bv64)
    requires |position| >= 2 && '1' <= position[1] <= '8'
    requires 'a' <= position[0] <= 'h' || position[1] != '8'
    ensures 'a' <= position[0] <= 'h' ==> Bitboard.BitPosition(position) == Ok(r as nat)
    ensures !('a' <= position[0] <= 'h') ==>
              Bitboard.BitPosition(position).Crash?
              && r as nat == Pow2(8 * (position[1] as int - '0' as int))
              && Bitboard.BitPosition(['h', (position[1] as int + 1) as char]) == Ok(r as nat)
  {
    var cols2int := "hgfedcba";
    var rows2int := "12345678";
    var col := 0;
    while col < 8
      invariant 0 <= col <= 8
      invariant forall k :: 0 <= k < col ==> cols2int[k] != position[0]
    {
      if cols2int[col] == position[0] {
        break;
      }
      col := col + 1;
    }
    if 'a' <= position[0] <= 'h' {
      assert cols2int['h' as int - position[0] as int] == position[0];
      assert col == 'h' as int - position[0] as int;
    } else {
      assert forall k :: 0 <= k < 8 ==> 'a' <= cols2int[k] <= 'h';
      assert col == 8;
    }
    var row := 0;
    while row < 8
      invariant 0 <= row <= 8
      invariant forall k :: 0 <= k < row ==> rows2int[k] != position[1]
    {
      if rows2int[row] == position[1] {
        break;
      }
      row := row + 1;
    }
    assert rows2int[position[1] as int - '1' as int] == position[1];
    assert row == position[1] as int - '1' as int;
    r := ((1 as bv64) << (col as bv8)) << ((row as bv8) * 8);
    DoubleShift(col, row);
  }

  /** The signed value an `int64_t` holds for the 64-bit pattern whose
      unsigned reading is `n`. */
  function AsInt64(n: nat): (v: int)
    requires n < 0x1_0000_0000_0000_0000
    ensures -0x8000_0000_0000_0000 <= v < 0x8000_0000_0000_0000
    ensures v < 0 <==> n >= 0x8000_0000_0000_0000
    ensures v % 0x1_0000_0000_0000_0000 == n
  {
    if n < 0x8000_0000_0000_0000 then n else n - 0x1_0000_0000_0000_0000
  }

  /** The corner squares: h1 is 1, a1 is 128, h8 is bit 56, and a8 is bit 63,
      which as an `int64_t` is the most negative value. */
  lemma Corners()
    ensures Bitboard.BitPosition("h1") == Ok(1)
    ensures Bitboard.BitPosition("a1") == Ok(128)
    ensures Bitboard.BitPosition("h8") == Ok(0x100_0000_0000_0000)
    ensures Bitboard.BitPosition("a8") == Ok(0x8000_0000_0000_0000)
    ensures AsInt64(Bitboard.BitPosition("a8").value) == -0x8000_0000_0000_0000
  {
    Bitboard.NamedSquare("h1", 7, 1);
    Bitboard.NamedSquare("a1", 0, 1);
    Bitboard.NamedSquare("h8", 7, 8);
    Bitboard.NamedSquare("a8", 0, 8);
    assert Pow2(7) == 128;
    Pow2TopRank();
    Pow2Top();
  }
}
