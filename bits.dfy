/** Non-negative Python integers seen as bit strings: powers of two, the bit
    at an index, and `&`. */
module Bits {

  function Pow2(k: nat): (r: nat)
    ensures r >= 1
  {
    if k == 0 then 1 else 2 * Pow2(k - 1)
  }

  /** Bit `k` of `n`. */
  predicate HasBit(n: nat, k: nat)
  {
    if k == 0 then n % 2 == 1 else HasBit(n / 2, k - 1)
  }

  /** Python's `&` on non-negative integers. */
  function BitAnd(a: nat, b: nat): nat
  {
    if a == 0 || b == 0 then 0
    else 2 * BitAnd(a / 2, b / 2) + (if a % 2 == 1 && b % 2 == 1 then 1 else 0)
  }

  lemma {:induction false} ZeroHasNoBit(k: nat)
    ensures !HasBit(0, k)
  {
    if k > 0 {
      ZeroHasNoBit(k - 1);
    }
  }

  /** A power of two has exactly one bit set. */
  lemma {:induction false} Pow2Bit(i: nat, k: nat)
    ensures HasBit(Pow2(i), k) <==> i == k
  {
    if i == 0 {
      if k > 0 {
        ZeroHasNoBit(k - 1);
      }
    } else if k > 0 {
      Pow2Bit(i - 1, k - 1);
    }
  }

  lemma Pow2Injective(i: nat, j: nat)
    ensures Pow2(i) == Pow2(j) ==> i == j
  {
    Pow2Bit(i, j);
    Pow2Bit(j, j);
  }

  lemma {:induction false} Pow2Add(i: nat, j: nat)
    ensures Pow2(i) * Pow2(j) == Pow2(i + j)
  {
    if i > 0 {
      Pow2Add(i - 1, j);
    }
  }

  /** Masking with a single bit tests that bit. */
  lemma {:induction false} AndPow2(k: nat, n: nat)
    ensures BitAnd(Pow2(k), n) > 0 <==> HasBit(n, k)
  {
    if n == 0 {
      ZeroHasNoBit(k);
    } else if k > 0 {
      AndPow2(k - 1, n / 2);
    }
  }

  lemma {:induction false} Pow2Below(i: nat, j: nat)
    requires i < j
    ensures Pow2(i) < Pow2(j)
  {
    if i < j - 1 {
      Pow2Below(i, j - 1);
    }
  }

  lemma Pow2Byte()
    ensures Pow2(8) == 0x100
  {
  }

  lemma Pow2Short()
    ensures Pow2(16) == 0x1_0000
  {
    Pow2Byte();
    Pow2Add(8, 8);
  }

  lemma Pow2Int()
    ensures Pow2(32) == 0x1_0000_0000
  {
    Pow2Short();
    Pow2Add(16, 16);
  }

  /** The first bit of the top rank of a 64-bit board. */
  lemma Pow2TopRank()
    ensures Pow2(56) == 0x100_0000_0000_0000
  {
    Pow2Int();
    Pow2Short();
    Pow2Byte();
    Pow2Add(32, 16);
    Pow2Add(48, 8);
  }

  lemma Pow2Top()
    ensures Pow2(63) == 0x8000_0000_0000_0000
  {
    Pow2TopRank();
    assert Pow2(7) == 0x80;
    Pow2Add(56, 7);
  }

  lemma BelowTop(k: nat)
    requires k < 63
    ensures Pow2(k) < 0x8000_0000_0000_0000
  {
    Pow2Below(k, 63);
    Pow2Top();
  }

  /** The 64-bit word with only bit `b` set. */
  function Bit(b: bv8): bv64
    requires b < 64
  {
    (1 as bv64) << b
  }

  /** Read as an unsigned number, the word with only bit `b` set is 2^b. */
  lemma {:induction false} BitValue(b: bv8)
    requires b < 64
    ensures Bit(b) as nat == Pow2(b as nat)
    decreases b as nat
  {
    if b > 0 {
      var x := Bit(b - 1);
      BitValue(b - 1);
      Predecessor(b);
      BelowTop((b - 1) as nat);
      Doubles(x);
      BitStep(b);
    }
  }

  lemma BitStep(b: bv8)
    requires 0 < b < 64
    ensures Bit(b) == Bit(b - 1) << 1
  {
  }

  lemma Predecessor(b: bv8)
    requires 0 < b
    ensures (b - 1) as nat == b as nat - 1
  {
  }

  lemma Doubles(x: bv64)
    requires x as nat < 0x8000_0000_0000_0000
    ensures (x << 1) as nat == 2 * (x as nat)
  {
  }
}
