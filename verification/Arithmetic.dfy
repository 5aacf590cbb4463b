/** Machine integers, powers of two and the alignment arithmetic that O_DIRECT needs. */
module Arithmetic {

  const TWO_32: nat := 0x1_0000_0000
  const TWO_64: nat := 0x1_0000_0000_0000_0000

  /** Conversion to `unsigned int`. */
  function U32(x: int): nat {
    x % TWO_32
  }

  /** Conversion to `size_t` or `uint64_t`. */
  function U64(x: int): nat {
    x % TWO_64
  }

  /** Conversion to `int32_t`. */
  function I32(x: int): int {
    var u := x % TWO_32;
    if u < 0x8000_0000 then u else u - TWO_32
  }

  function Min(a: nat, b: nat): nat {
    if a < b then a else b
  }

  predicate IsPow2(n: nat) {
    n == 1 || (n > 1 && n % 2 == 0 && IsPow2(n / 2))
  }

  /** The bitwise `&` of two unsigned integers. */
  function And(x: nat, y: nat): nat {
    if x == 0 || y == 0 then 0
    else 2 * And(x / 2, y / 2) + (if x % 2 == 1 && y % 2 == 1 then 1 else 0)
  }

  /** Rounds a byte count up to the alignment, as the runner does for a read. */
  function RoundUp(n: nat, align: nat): nat {
    if align == 0 then n
    else if n % align != 0 then (n / align + 1) * align
    else n
  }

  /** Steps a file offset back to the alignment, as the runner does after a short read. */
  function AlignDown(n: nat, align: nat): nat {
    if align == 0 then n else (n / align) * align
  }

  /** The address that `giveBuffer` computes: `(p - 1 + align) & -align` on 64-bit words. */
  function AlignAddress(address: nat, align: nat): nat {
    var a: int := align;
    And(U64(address - 1 + a), U64(-a))
  }

  function Pow2(k: nat): (p: nat)
    ensures p > 0
  {
    if k == 0 then 1 else 2 * Pow2(k - 1)
  }

  lemma MulOrder(a: nat, b: nat, d: nat)
    requires a < b
    ensures a * d + d <= b * d
  {
    var k: nat := b - a - 1;
    assert b * d == a * d + d + k * d;
  }

  lemma DivMod(n: nat, d: nat)
    requires d > 0
    ensures n == (n / d) * d + n % d
    ensures 0 <= n % d < d
  {
  }

  /** The quotient and remainder are the only pair that fits. */
  lemma DivModUnique(n: nat, d: nat, q: nat, r: nat)
    requires d > 0
    requires r < d
    requires n == q * d + r
    ensures n / d == q && n % d == r
  {
    DivMod(n, d);
    if q > n / d {
      MulOrder(n / d, q, d);
    } else if q < n / d {
      MulOrder(q, n / d, d);
    }
  }

  lemma MultipleMod(q: nat, d: nat)
    requires d > 0
    ensures (q * d) % d == 0 && (q * d) / d == q
  {
    DivModUnique(q * d, d, q, 0);
  }

  lemma ModSum(x: nat, y: nat, d: nat)
    requires d > 0
    requires x % d == 0
    ensures (x + y) % d == y % d
  {
    DivMod(x, d);
    DivMod(y, d);
    var q := x / d + y / d;
    assert x + y == q * d + y % d;
    DivModUnique(x + y, d, q, y % d);
  }

  lemma ModDifference(x: nat, y: nat, d: nat)
    requires d > 0
    requires x <= y
    requires x % d == 0 && y % d == 0
    ensures (y - x) % d == 0
  {
    ModSum(x, y - x, d);
  }

  lemma ModProduct(x: nat, k: nat, d: nat)
    requires d > 0
    requires x % d == 0
    ensures (x * k) % d == 0
  {
    DivMod(x, d);
    var q := (x / d) * k;
    assert x * k == q * d by {
      assert x * k == ((x / d) * d) * k;
    }
    MultipleMod(q, d);
  }

  lemma ModTransitive(x: nat, y: nat, d: nat)
    requires d > 0 && y > 0
    requires x % y == 0 && y % d == 0
    ensures x % d == 0
  {
    DivMod(x, y);
    ModMultiple(x, x / y, y, d);
  }

  lemma ModMultiple(x: nat, k: nat, y: nat, d: nat)
    requires d > 0 && y % d == 0 && x == k * y
    ensures x % d == 0
  {
    assert x == y * k;
    ModProduct(y, k, d);
  }

  /** A power of two divides every power of two that is not smaller. */
  lemma {:induction false} Pow2Divides(a: nat, b: nat)
    requires IsPow2(a) && IsPow2(b) && a <= b
    ensures b % a == 0
  {
    if a > 1 {
      Pow2Divides(a / 2, b / 2);
      DivMod(b / 2, a / 2);
      var q := (b / 2) / (a / 2);
      assert b / 2 == q * (a / 2);
      assert a == 2 * (a / 2) && b == 2 * (b / 2);
      assert b == q * a;
      MultipleMod(q, a);
    }
  }

  /** One bit more than a half: how a quotient and remainder by h give those by 2h. */
  lemma DoubleDivMod(x: nat, h: nat)
    requires h > 0
    ensures x % (2 * h) == 2 * ((x / 2) % h) + x % 2
  {
    DivMod(x / 2, h);
    var q, r := (x / 2) / h, (x / 2) % h;
    assert x == q * (2 * h) + (2 * r + x % 2) by {
      assert 2 * (q * h) == q * (2 * h);
    }
    DivModUnique(x, 2 * h, q, 2 * r + x % 2);
  }

  /** The low bits of x, as many as the power of two p has zeros. */
  function LowBits(x: nat, p: nat): nat {
    if p <= 1 then 0 else 2 * LowBits(x / 2, p / 2) + x % 2
  }

  lemma EvenPow2(p: nat)
    requires IsPow2(p) && p > 1
    ensures p == 2 * (p / 2) && p / 2 > 0 && IsPow2(p / 2)
  {
  }

  lemma {:induction false} LowBitsIsMod(x: nat, p: nat)
    requires IsPow2(p)
    ensures LowBits(x, p) == x % p
  {
    if p == 1 {
      assert x % 1 == 0;
    } else {
      EvenPow2(p);
      LowBitsIsMod(x / 2, p / 2);
      DoubleDivMod(x, p / 2);
    }
  }

  lemma {:induction false} MaskIsLowBits(x: nat, p: nat)
    requires IsPow2(p)
    ensures And(x, p - 1) == LowBits(x, p)
  {
    if p > 1 {
      EvenPow2(p);
      MaskIsLowBits(x / 2, p / 2);
      assert (p - 1) / 2 == p / 2 - 1;
    }
    if x == 0 {
      ZeroHasNoBits(p);
    }
  }

  lemma {:induction false} ZeroHasNoBits(p: nat)
    ensures LowBits(0, p) == 0
  {
    if p > 1 {
      ZeroHasNoBits(p / 2);
    }
  }

  /** Masking with `entries - 1` is reduction modulo a power of two. */
  lemma MaskIsMod(x: nat, p: nat)
    requires IsPow2(p)
    ensures And(x, p - 1) == x % p
  {
    hide And, LowBits;
    MaskIsLowBits(x, p);
    LowBitsIsMod(x, p);
  }

  lemma {:induction false} SmallIsLowBits(x: nat, p: nat)
    requires IsPow2(p) && x < p
    ensures LowBits(x, p) == x
  {
    if p > 1 {
      EvenPow2(p);
      SmallIsLowBits(x / 2, p / 2);
    }
  }

  lemma {:induction false} HighMaskLowBits(x: nat, top: nat, p: nat)
    requires IsPow2(p) && IsPow2(top) && p <= top && x < top
    ensures And(x, top - p) == x - LowBits(x, p)
    decreases top
  {
    if x == 0 || top == p {
      AndZero(x, top - p);
      SmallIsLowBits(x, p);
    } else {
      EvenPow2(top);
      if p == 1 {
        HighMaskLowBits(x / 2, top / 2, 1);
      } else {
        EvenPow2(p);
        HighMaskLowBits(x / 2, top / 2, p / 2);
      }
    }
  }

  /** Masking an n-bit word with `-p` clears exactly the bits below a power of two p. */
  lemma HighMask(x: nat, top: nat, p: nat)
    requires IsPow2(p) && IsPow2(top) && p <= top && x < top
    ensures And(x, top - p) == x - x % p
  {
    hide And, LowBits;
    HighMaskLowBits(x, top, p);
    LowBitsIsMod(x, p);
  }

  lemma AndZero(x: nat, y: nat)
    requires x == 0 || y == 0
    ensures And(x, y) == 0
  {
  }

  lemma {:induction false} Pow2IsPow2(k: nat)
    ensures IsPow2(Pow2(k))
  {
    if k > 0 {
      Pow2IsPow2(k - 1);
      assert Pow2(k) / 2 == Pow2(k - 1);
    }
  }

  lemma WordsArePow2()
    ensures IsPow2(TWO_32) && IsPow2(TWO_64)
  {
    assert Pow2(8) == 0x100;
    assert Pow2(16) == 0x1_0000;
    assert Pow2(24) == 0x100_0000;
    assert Pow2(32) == TWO_32;
    assert Pow2(40) == 0x100_0000_0000;
    assert Pow2(48) == 0x1_0000_0000_0000;
    assert Pow2(56) == 0x100_0000_0000_0000;
    assert Pow2(64) == TWO_64;
    Pow2IsPow2(32);
    Pow2IsPow2(64);
  }

  /** On 64-bit words, `x & -align` steps x back to the alignment. */
  lemma NegativeMask(x: nat, align: nat)
    requires IsPow2(align)
    requires x < TWO_64 && align < TWO_64
    ensures And(x, TWO_64 - align) == AlignDown(x, align)
  {
    WordsArePow2();
    HighMask(x, TWO_64, align);
    DivMod(x, align);
  }

  lemma SmallWord(x: int)
    ensures 0 <= x < TWO_64 ==> U64(x) == x
    ensures 0 < x < TWO_64 ==> U64(-x) == TWO_64 - x
    ensures 0 <= x < TWO_32 ==> U32(x) == x
  {
  }

  lemma AlignAddressIsAlignDown(address: nat, align: nat)
    requires IsPow2(align)
    requires align < TWO_64 && address + align <= TWO_64
    ensures AlignAddress(address, align) == AlignDown(address - 1 + align, align)
  {
    hide And, IsPow2, U64, AlignDown;
    Pow2Positive(align);
    var x: nat := address - 1 + align;
    SmallWord(align);
    SmallWord(x);
    NegativeMask(x, align);
  }

  lemma Pow2Positive(p: nat)
    requires IsPow2(p)
    ensures p > 0
  {
  }

  /** What the aligned address is worth: the least aligned address not below the block. */
  lemma AlignAddressMeaning(address: nat, align: nat)
    requires IsPow2(align)
    requires align < TWO_64 && address + align <= TWO_64
    ensures AlignAddress(address, align) % align == 0
    ensures address <= AlignAddress(address, align) < address + align
    ensures address % align == 0 ==> AlignAddress(address, align) == address
  {
    hide AlignAddress, AlignDown;
    AlignAddressIsAlignDown(address, align);
    var result := AlignDown(address - 1 + align, align);
    AlignDownMeaning(address - 1 + align, align);
    if address % align == 0 {
      MultiplesApart(address, result, align);
    }
  }

  lemma RoundUpMeaning(n: nat, align: nat)
    requires align > 0
    ensures RoundUp(n, align) % align == 0
    ensures n <= RoundUp(n, align) < n + align
    ensures n % align == 0 ==> RoundUp(n, align) == n
  {
    DivMod(n, align);
    MultipleMod(n / align + 1, align);
    assert (n / align + 1) * align == (n / align) * align + align;
  }

  /** Two multiples that are less than one step apart are equal. */
  lemma MultiplesApart(x: nat, y: nat, d: nat)
    requires d > 0
    requires x % d == 0 && y % d == 0
    ensures x < y ==> x + d <= y
  {
    DivMod(x, d);
    DivMod(y, d);
    if x < y {
      if x / d < y / d {
        MulOrder(x / d, y / d, d);
      } else if x / d > y / d {
        MulOrder(y / d, x / d, d);
      }
    }
  }

  lemma RoundUpUnique(n: nat, align: nat, m: nat)
    requires align > 0
    requires m % align == 0 && n <= m < n + align
    ensures m == RoundUp(n, align)
  {
    RoundUpMeaning(n, align);
    MultiplesApart(m, RoundUp(n, align), align);
    MultiplesApart(RoundUp(n, align), m, align);
  }

  /** Rounding up the rest of an aligned prefix ends where rounding up the whole ends. */
  lemma RoundUpSplit(prefix: nat, rest: nat, align: nat)
    requires align > 0
    requires prefix % align == 0
    ensures prefix + RoundUp(rest, align) == RoundUp(prefix + rest, align)
  {
    RoundUpMeaning(rest, align);
    ModSum(prefix, RoundUp(rest, align), align);
    RoundUpUnique(prefix + rest, align, prefix + RoundUp(rest, align));
  }

  lemma RoundUpFits(n: nat, limit: nat, align: nat)
    requires align > 0
    requires n <= limit && limit % align == 0
    ensures RoundUp(n, align) <= limit
  {
    RoundUpMeaning(n, align);
    MultiplesApart(limit, RoundUp(n, align), align);
  }

  lemma AlignDownMeaning(n: nat, align: nat)
    requires align > 0
    ensures AlignDown(n, align) % align == 0
    ensures AlignDown(n, align) <= n < AlignDown(n, align) + align
  {
    DivMod(n, align);
    MultipleMod(n / align, align);
  }

  /** Stepping back never passes an aligned offset, and keeps a whole alignment unit of progress. */
  lemma AlignDownKeeps(low: nat, n: nat, align: nat)
    requires align > 0
    requires low % align == 0 && low <= n
    ensures low <= AlignDown(n, align)
    ensures low + align <= n ==> low + align <= AlignDown(n, align)
  {
    AlignDownMeaning(n, align);
    MultiplesApart(AlignDown(n, align), low, align);
    ModSum(low, align, align);
    MultiplesApart(AlignDown(n, align), low + align, align);
  }
}
