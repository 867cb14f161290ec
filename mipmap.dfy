// Mip chain length of an image: the engine counts how many times the larger
// side can be halved (integer shift) before reaching zero.

module MipMap {
  import opened Vk

  /** Number of binary digits of m: 0 for 0, otherwise floor(log2 m) + 1. */
  function BitLength(m: nat): nat
  {
    if m == 0 then 0 else 1 + BitLength(m / 2)
  }

  function Pow2(k: nat): (p: nat)
    ensures p >= 1
  {
    if k == 0 then 1 else 2 * Pow2(k - 1)
  }

  function Max(a: nat, b: nat): nat
  {
    if a >= b then a else b
  }

  /** Reference value: the full mip chain of a width x height image. */
  function MipLevels(width: nat, height: nat): nat
  {
    BitLength(Max(width, height))
  }

  /** calcNumMipLevels: shift the larger side right until it is zero, counting steps. */
  method CalcNumMipLevels(width: nat, height: nat) returns (levels: nat)
    requires width <= UINT32_MAX && height <= UINT32_MAX
    ensures levels == MipLevels(width, height)
    ensures levels <= 32
    ensures levels == 0 <==> width == 0 && height == 0
  {
    levels := 0;
    var size: nat := if width >= height then width else height;
    while size > 0
      invariant levels + BitLength(size) == MipLevels(width, height)
      decreases size
    {
      levels := levels + 1;
      size := size / 2;
    }
    MipLevelsBounded(width, height);
    MipLevelsZero(width, height);
  }

  /** The count brackets the larger side between two consecutive powers of two. */
  lemma {:induction false} BitLengthBrackets(m: nat)
    requires m > 0
    ensures BitLength(m) >= 1
    ensures Pow2(BitLength(m) - 1) <= m < Pow2(BitLength(m))
  {
    if m >= 2 {
      BitLengthBrackets(m / 2);
    }
  }

  /** A value below 2^k has at most k binary digits. */
  lemma {:induction false} BitLengthBelowPow2(m: nat, k: nat)
    requires m < Pow2(k)
    ensures BitLength(m) <= k
  {
    if m > 0 {
      assert k > 0;
      BitLengthBelowPow2(m / 2, k - 1);
    }
  }

  lemma {:induction false} BitLengthMonotone(a: nat, b: nat)
    requires a <= b
    ensures BitLength(a) <= BitLength(b)
  {
    if a > 0 {
      BitLengthMonotone(a / 2, b / 2);
    }
  }

  /** The chain is empty exactly for a 0 x 0 image. */
  lemma MipLevelsZero(width: nat, height: nat)
    ensures MipLevels(width, height) == 0 <==> width == 0 && height == 0
  {
  }

  /** A 32-bit image never needs more than 32 levels. */
  lemma MipLevelsBounded(width: nat, height: nat)
    requires width <= UINT32_MAX && height <= UINT32_MAX
    ensures MipLevels(width, height) <= 32
  {
    assert Pow2(32) == 0x1_0000_0000 by {
      assert Pow2(8) == 256;
      assert Pow2(16) == 256 * 256 by { Pow2Add(8, 8); }
      Pow2Add(16, 16);
    }
    BitLengthBelowPow2(Max(width, height), 32);
  }

  lemma {:induction false} Pow2Add(a: nat, b: nat)
    ensures Pow2(a + b) == Pow2(a) * Pow2(b)
  {
    if a > 0 {
      Pow2Add(a - 1, b);
    }
  }

  /** The smallest mip level (level count - 1 halvings) is at least one texel on the larger side. */
  lemma MipLevelsBracket(width: nat, height: nat)
    requires width > 0 || height > 0
    ensures Pow2(MipLevels(width, height) - 1) <= Max(width, height) < Pow2(MipLevels(width, height))
  {
    BitLengthBrackets(Max(width, height));
  }

  /** Growing either side never shortens the chain; the count depends only on the larger side. */
  lemma MipLevelsMonotone(w1: nat, h1: nat, w2: nat, h2: nat)
    requires w1 <= w2 && h1 <= h2
    ensures MipLevels(w1, h1) <= MipLevels(w2, h2)
    ensures MipLevels(w1, h1) == MipLevels(h1, w1)
  {
    BitLengthMonotone(Max(w1, h1), Max(w2, h2));
  }

  /** Worked values: 1x1 has one level, 1024x512 has eleven. */
  lemma MipLevelsExamples()
    ensures MipLevels(1, 1) == 1
    ensures MipLevels(1024, 512) == 11
    ensures MipLevels(0, 7) == 3
  {
    assert BitLength(1) == 1;
    assert BitLength(3) == 2;
    assert BitLength(7) == 3;
    assert BitLength(1024) == 11 by {
      assert BitLength(1) == 1;
      assert BitLength(2) == 2;
      assert BitLength(4) == 3;
      assert BitLength(8) == 4;
      assert BitLength(16) == 5;
      assert BitLength(32) == 6;
      assert BitLength(64) == 7;
      assert BitLength(128) == 8;
      assert BitLength(256) == 9;
      assert BitLength(512) == 10;
    }
  }
}
