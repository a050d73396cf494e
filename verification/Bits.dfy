/**
 Machine-word arithmetic behind block placement: powers of two, the `align_up` bit trick of
 src/arena/block.rs and the `checked_next_power_of_two` used by the block-growth rule.

 Words are natural numbers below 2^64; every place where the source wraps or checks for
 overflow mentions `USIZE_MAX` explicitly.
 */
module Bits {

  newtype byte = x: int | 0 <= x < 256

  const WORD_BITS: nat := 64
  const USIZE_MAX: nat := 0xFFFF_FFFF_FFFF_FFFF

  function Pow2(k: nat): (p: nat)
    ensures p > 0
  {
    if k == 0 then 1 else 2 * Pow2(k - 1)
  }

  predicate IsPow2(n: nat) {
    n == 1 || (n > 1 && n % 2 == 0 && IsPow2(n / 2))
  }

  /** The exponent of a power of two. */
  function Log2(n: nat): (k: nat)
    requires IsPow2(n)
    ensures Pow2(k) == n
  {
    if n == 1 then 0 else 1 + Log2(n / 2)
  }

  lemma {:induction false} Pow2Monotone(j: nat, k: nat)
    requires j <= k
    ensures Pow2(j) <= Pow2(k)
    decreases k
  {
    if j < k {
      Pow2Monotone(j, k - 1);
    }
  }

  lemma {:induction false} Pow2IsPow2(k: nat)
    ensures IsPow2(Pow2(k))
  {
    if k > 0 {
      Pow2IsPow2(k - 1);
      assert Pow2(k) / 2 == Pow2(k - 1);
    }
  }

  // ----- division facts --------------------------------------------------------------------------

  lemma ProductOrder(q: int, q': int, d: int)
    requires q < q' && d >= 0
    ensures q * d + d <= q' * d
  {
    assert q' * d == q * d + (q' - q) * d;
    assert (q' - q) * d == (q' - q - 1) * d + d;
  }

  lemma QuotientUnique(n: nat, d: nat, q: int, r: nat)
    requires d > 0 && n == q * d + r && r < d
    ensures n / d == q && n % d == r
  {
    var q' := n / d;
    if q > q' {
      ProductOrder(q', q, d);
    } else if q < q' {
      ProductOrder(q, q', d);
    }
  }

  lemma StepDown(n: nat, d: nat)
    requires 0 < d <= n
    ensures n % d == (n - d) % d
  {
    var q := n / d;
    assert n - d == (q - 1) * d + n % d;
    QuotientUnique(n - d, d, q - 1, n % d);
  }

  // ----- alignment -------------------------------------------------------------------------------

  /** `addr` is a multiple of `align`, by repeated subtraction. */
  predicate Aligned(addr: nat, align: nat)
    requires align > 0
  {
    addr == 0 || (addr >= align && Aligned(addr - align, align))
  }

  lemma {:induction false} AlignedIsMod(addr: nat, align: nat)
    requires align > 0
    ensures Aligned(addr, align) <==> addr % align == 0
  {
    if addr >= align {
      StepDown(addr, align);
      AlignedIsMod(addr - align, align);
    }
  }

  lemma {:induction false} AlignedSum(a: nat, b: nat, align: nat)
    requires align > 0 && Aligned(a, align)
    ensures Aligned(a + b, align) <==> Aligned(b, align)
    decreases a
  {
    if a > 0 {
      AlignedSum(a - align, b, align);
    }
  }

  /** A multiple of a power of two is a multiple of every smaller power of two. */
  lemma AlignedDown(addr: nat, big: nat, small: nat)
    requires IsPow2(big) && IsPow2(small) && small <= big
    requires Aligned(addr, big)
    ensures Aligned(addr, small)
    decreases big
  {
    if small < big {
      HalfBound(small, big);
      AlignedHalf(addr, big / 2);
      AlignedDown(addr, big / 2, small);
    }
  }

  lemma {:induction false} AlignedHalf(addr: nat, half: nat)
    requires half > 0 && Aligned(addr, 2 * half)
    ensures Aligned(addr, half)
  {
    if addr > 0 {
      AlignedHalf(addr - 2 * half, half);
      assert Aligned(addr - half, half);
    }
  }

  lemma {:induction false} HalfBound(small: nat, big: nat)
    requires IsPow2(big) && IsPow2(small) && small < big
    ensures small <= big / 2
  {
    if small > 1 {
      HalfBound(small / 2, big / 2);
    }
  }

  // ----- rounding up -----------------------------------------------------------------------------

  /** Reference meaning of `align_up`: count multiples of `align` until one covers `addr`. */
  function RoundUp(addr: nat, align: nat): (r: nat)
    requires align > 0
    ensures addr <= r < addr + align
  {
    if addr == 0 then 0
    else if addr <= align then align
    else align + RoundUp(addr - align, align)
  }

  lemma {:induction false} RoundUpAligned(addr: nat, align: nat)
    requires align > 0
    ensures Aligned(RoundUp(addr, align), align)
    ensures Aligned(addr, align) ==> RoundUp(addr, align) == addr
  {
    if addr > align {
      RoundUpAligned(addr - align, align);
    }
  }

  /** `RoundUp` is the least multiple at or above its argument. */
  lemma {:induction false} RoundUpLeast(addr: nat, align: nat, m: nat)
    requires align > 0 && addr <= m && Aligned(m, align)
    ensures RoundUp(addr, align) <= m
    decreases addr
  {
    if addr > align {
      RoundUpLeast(addr - align, align, m - align);
    }
  }

  /** Rounding commutes with an aligned base. */
  lemma {:induction false} RoundUpShift(base: nat, off: nat, align: nat)
    requires align > 0 && Aligned(base, align)
    ensures RoundUp(base + off, align) == base + RoundUp(off, align)
    decreases base
  {
    if base > 0 {
      RoundUpShift(base - align, off, align);
    }
  }

  /** Bitwise and of two natural numbers. */
  function And(x: nat, y: nat): nat
  {
    if x == 0 || y == 0 then 0
    else 2 * And(x / 2, y / 2) + if x % 2 == 1 && y % 2 == 1 then 1 else 0
  }

  /** Bitwise complement of a machine word. */
  function Not(x: nat): (r: nat)
    requires x <= USIZE_MAX
    ensures r == USIZE_MAX - x
  {
    USIZE_MAX - x
  }

  lemma AndStep(x: nat, y: nat)
    ensures And(x, y) == 2 * And(x / 2, y / 2) + if x % 2 == 1 && y % 2 == 1 then 1 else 0
  {}

  /** A mask of `w` ones keeps a `w`-bit number. */
  lemma {:induction false} MaskKeepsAll(x: nat, w: nat)
    requires x < Pow2(w)
    ensures And(x, Pow2(w) - 1) == x
  {
    if w > 0 {
      MaskKeepsAll(x / 2, w - 1);
      AndStep(x, Pow2(w) - 1);
    }
  }

  /** The low `k` bits. */
  function Low(x: nat, k: nat): (r: nat)
    ensures r <= x
  {
    if k == 0 then 0 else 2 * Low(x / 2, k - 1) + x % 2
  }

  lemma {:induction false} LowIsMod(x: nat, k: nat)
    ensures Low(x, k) == x % Pow2(k)
  {
    if k > 0 {
      LowIsMod(x / 2, k - 1);
      HalfMod(x, Pow2(k - 1));
    }
  }

  /** Masking off the low `k` bits of a `w`-bit number subtracts them. */
  lemma {:induction false} MaskClearsLowBits(x: nat, k: nat, w: nat)
    requires k <= w && x < Pow2(w)
    ensures Pow2(k) <= Pow2(w)
    ensures And(x, Pow2(w) - Pow2(k)) == x - Low(x, k)
    decreases w
  {
    Pow2Monotone(k, w);
    if k == 0 {
      MaskKeepsAll(x, w);
    } else {
      MaskClearsLowBits(x / 2, k - 1, w - 1);
      AndStep(x, 2 * (Pow2(w - 1) - Pow2(k - 1)));
    }
  }

  lemma HalfMod(x: nat, h: nat)
    requires h > 0
    ensures x % (2 * h) == 2 * ((x / 2) % h) + x % 2
  {
    var q, r := (x / 2) / h, (x / 2) % h;
    assert x == 2 * (q * h + r) + x % 2;
    assert 2 * (q * h + r) == q * (2 * h) + 2 * r;
    QuotientUnique(x, 2 * h, q, 2 * r + x % 2);
  }

  lemma WordIsPow2()
    ensures Pow2(WORD_BITS) == USIZE_MAX + 1
  {
    assert Pow2(4) == 0x10;
    Pow2Add(4, 4);
    Pow2Add(8, 8);
    Pow2Add(16, 16);
    Pow2Add(32, 32);
  }

  lemma {:induction false} Pow2Add(j: nat, k: nat)
    ensures Pow2(j + k) == Pow2(j) * Pow2(k)
  {
    if j > 0 {
      Pow2Add(j - 1, k);
      assert Pow2(j + k) == 2 * Pow2(j - 1 + k);
    }
  }

  /**
   The source's expression, `(addr + align - 1) & !(align - 1)`. It equals `RoundUp`,
   which counts multiples, for every power of two, so it is the least multiple of `align` at or above `addr`.
   */
  function AlignUp(addr: nat, align: nat): (r: nat)
    requires IsPow2(align) && addr + align - 1 <= USIZE_MAX
    ensures r == RoundUp(addr, align)
  {
    AlignUpIsRoundUp(addr, align);
    And(addr + align - 1, Not(align - 1))
  }

  lemma AlignUpIsRoundUp(addr: nat, align: nat)
    requires IsPow2(align) && addr + align - 1 <= USIZE_MAX
    ensures And(addr + align - 1, Not(align - 1)) == RoundUp(addr, align)
  {
    var k := Log2(align);
    var x := addr + align - 1;
    WordIsPow2();
    if k > WORD_BITS {
      assert Pow2(WORD_BITS + 1) == 2 * Pow2(WORD_BITS);
      Pow2Monotone(WORD_BITS + 1, k);
      assert false;
    }
    MaskClearsLowBits(x, k, WORD_BITS);
    LowIsMod(x, k);
    assert And(x, Not(align - 1)) == x - x % align;
    MaskedIsRoundUp(addr, align);
  }

  /** `x - x % align` at `x == addr + align - 1` is the next multiple at or above `addr`. */
  lemma {:induction false} MaskedIsRoundUp(addr: nat, align: nat)
    requires align > 0
    ensures var x := addr + align - 1; x - x % align == RoundUp(addr, align)
    decreases addr
  {
    if addr > align {
      StepDown(addr + align - 1, align);
      MaskedIsRoundUp(addr - align, align);
    } else if addr > 0 {
      StepDown(addr + align - 1, align);
    }
  }

  // ----- next power of two -----------------------------------------------------------------------

  /** The least power of two that is at least `n`; the source's `next_power_of_two`. */
  function NextPow2(n: nat): (p: nat)
    ensures IsPow2(p) && p >= n
  {
    DoubleUntil(1, n)
  }

  function DoubleUntil(p: nat, n: nat): (r: nat)
    requires IsPow2(p)
    ensures IsPow2(r) && r >= n && r >= p
    decreases if p >= n then 0 else n - p
  {
    if p >= n then p else DoubleUntil(2 * p, n)
  }

  lemma {:induction false} DoubleUntilLeast(p: nat, n: nat, m: nat)
    requires IsPow2(p) && IsPow2(m) && p <= m && n <= m
    ensures DoubleUntil(p, n) <= m
    decreases if p >= n then 0 else n - p
  {
    if p < n {
      HalfBound(p, m);
      DoubleUntilLeast(2 * p, n, m);
    }
  }

  /** No power of two that covers `n` is smaller than `NextPow2(n)`. */
  lemma NextPow2Least(n: nat, m: nat)
    requires IsPow2(m) && n <= m
    ensures NextPow2(n) <= m
  {
    Pow2AtLeastOne(m);
    DoubleUntilLeast(1, n, m);
  }

  lemma Pow2AtLeastOne(m: nat)
    requires IsPow2(m)
    ensures m >= 1
  {}

  /** A request strictly above a power of two jumps at least to its double. */
  lemma NextPow2Doubles(p: nat, n: nat)
    requires IsPow2(p) && p < n
    ensures 2 * p <= NextPow2(n)
  {
    HalfBound(p, NextPow2(n));
  }
}
