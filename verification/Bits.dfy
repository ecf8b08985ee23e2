/** JavaScript's 32-bit operators on integers, and what masking with a run of ones means in arithmetic. */
module Bits {
  import opened Numbers

  function ToUint32(x: int): nat {
    x % 0x1_0000_0000
  }

  function ToInt32(x: int): int {
    var m := x % 0x1_0000_0000;
    if m >= 0x8000_0000 then m - 0x1_0000_0000 else m
  }

  /** Bitwise and of two naturals. */
  function And(x: nat, y: nat): nat {
    if x == 0 || y == 0 then 0
    else 2 * And(x / 2, y / 2) + (if x % 2 == 1 && y % 2 == 1 then 1 else 0)
  }

  /** The `&` operator. */
  function BitAnd(x: int, y: int): int {
    ToInt32(And(ToUint32(x), ToUint32(y)))
  }

  /** The `<<` operator, for a shift count below 32. */
  function ShiftLeft(x: int, n: nat): int {
    ToInt32(x * Pow2(n))
  }

  /** The `>>` operator on a natural below 2^31, for a shift count below 32. */
  function ShiftRight(x: nat, n: nat): nat {
    if n == 0 then x else ShiftRight(x / 2, n - 1)
  }

  lemma HalfPow(n: nat)
    requires n > 0
    ensures Pow2(n) / 2 == Pow2(n - 1) && Pow2(n) % 2 == 0 && Pow2(n) - 1 > 0
    ensures (Pow2(n) - 1) / 2 == Pow2(n - 1) - 1 && (Pow2(n) - 1) % 2 == 1
  {
  }

  lemma ModByHalf(x: nat, p: nat)
    requires p > 0
    ensures x % (2 * p) == 2 * ((x / 2) % p) + x % 2
  {
    var q, r := (x / 2) / p, (x / 2) % p;
    assert x == 2 * (q * p + r) + x % 2 == (2 * p) * q + (2 * r + x % 2);
    DivModUnique(x, 2 * p, q, 2 * r + x % 2);
  }

  lemma DivModUnique(x: int, d: int, q: int, r: int)
    requires 0 <= r < d && x == d * q + r
    ensures x / d == q && x % d == r
  {
    var a := x / d;
    assert x == d * a + x % d;
    if a > q {
      MulStep(d, q, a);
    } else if a < q {
      MulStep(d, a, q);
    }
  }

  lemma MulStep(d: int, a: int, b: int)
    requires d > 0 && a < b
    ensures d * a + d <= d * b
  {
    Distributes(d, a, b - a);
    AtLeastOnce(d, b - a);
  }

  lemma Distributes(d: int, a: int, m: int)
    ensures d * (a + m) == d * a + d * m
  {
  }

  lemma {:induction false} AtLeastOnce(d: int, m: int)
    requires d > 0 && m >= 1
    ensures d * m >= d
    decreases m
  {
    if m > 1 {
      AtLeastOnce(d, m - 1);
      Distributes(d, m - 1, 1);
    }
  }

  /** Shifting right divides by a power of two. */
  lemma {:induction false} ShiftRightDivides(x: nat, n: nat)
    ensures ShiftRight(x, n) == x / Pow2(n)
    decreases n
  {
    if n == 0 {
      assert x / 1 == x;
    } else {
      ShiftRightDivides(x / 2, n - 1);
      DivByHalf(x, Pow2(n - 1));
    }
  }

  lemma DivByHalf(x: nat, p: nat)
    requires p > 0
    ensures x / (2 * p) == (x / 2) / p
  {
    var q, r := (x / 2) / p, (x / 2) % p;
    assert x == 2 * (q * p + r) + x % 2 == (2 * p) * q + (2 * r + x % 2);
    DivModUnique(x, 2 * p, q, 2 * r + x % 2);
  }

  lemma ShiftRightEight(x: nat)
    ensures ShiftRight(x, 8) == x / 256
  {
    assert Pow2(8) == 256;
    ShiftRightDivides(x, 8);
  }

  /** Masking with the low `k` ones is the remainder. */
  lemma {:induction false} AndLowOnes(x: nat, k: nat)
    ensures And(x, Pow2(k) - 1) == x % Pow2(k)
    decreases k
  {
    if k > 0 {
      HalfPow(k);
      ModByHalf(x, Pow2(k - 1));
      AndLowOnes(x / 2, k - 1);
      if x == 0 {
        assert x % Pow2(k) == 0;
      }
    }
  }

  /** Masking with the ones between bit `k` and bit `n` rounds down to a multiple of 2^k. */
  lemma {:induction false} AndHighOnes(x: nat, k: nat, n: nat)
    requires k <= n && x < Pow2(n)
    ensures Pow2(k) <= Pow2(n)
    ensures And(x, Pow2(n) - Pow2(k)) == x - x % Pow2(k)
    decreases n
  {
    if k == 0 {
      AndLowOnes(x, n);
      DivModUnique(x, Pow2(n), 0, x);
      assert Pow2(0) == 1 && x % 1 == 0;
    } else {
      var p, q, half := Pow2(k - 1), Pow2(n - 1), x / 2;
      AndHighOnes(half, k - 1, n - 1);
      AndDoubled(x, q - p);
      ModByHalf(x, p);
      DoubledBack(x, half % p, And(half, q - p));
    }
  }

  lemma DoubledBack(x: nat, r: nat, rounded: int)
    requires rounded == x / 2 - r
    ensures 2 * rounded == x - (2 * r + x % 2)
  {
  }

  lemma AndDoubled(x: nat, m: nat)
    ensures And(x, 2 * m) == 2 * And(x / 2, m)
  {
    assert (2 * m) / 2 == m && (2 * m) % 2 == 0;
  }

  lemma BitAndOfWords(x: nat, y: nat)
    requires x < 0x1_0000_0000 && y < 0x1_0000_0000
    ensures BitAnd(x, y) == ToInt32(And(x, y))
  {
    WordIsItself(x);
    WordIsItself(y);
  }

  lemma WordIsItself(x: nat)
    requires x < 0x1_0000_0000
    ensures ToUint32(x) == x
  {
  }

  lemma {:induction false} PowAdds(m: nat, n: nat)
    ensures Pow2(m + n) == Pow2(m) * Pow2(n)
    decreases n
  {
    if n > 0 {
      PowAdds(m, n - 1);
      Doubled(Pow2(m), Pow2(n - 1));
    }
  }

  lemma Doubled(a: int, b: int)
    ensures 2 * (a * b) == a * (2 * b)
  {
  }

  lemma WordIsPow()
    ensures Pow2(32) == 0x1_0000_0000
  {
    assert Pow2(8) == 256;
    PowAdds(8, 8);
    PowAdds(16, 16);
  }

  lemma PowsGrow(k: nat, n: nat)
    requires k <= n
    ensures Pow2(k) <= Pow2(n)
  {
    PowAdds(k, n - k);
    assert Pow2(k) * Pow2(n - k) >= Pow2(k) * 1;
  }

  /** `x & 0xffff` on a word. */
  function Low16(x: nat): (r: nat)
    requires x < 0x1_0000_0000
    ensures r == x % 0x1_0000
  {
    LowWordIs(x);
    BitAnd(x, 0xffff)
  }

  lemma LowWordIs(x: nat)
    requires x < 0x1_0000_0000
    ensures BitAnd(x, 0xffff) == x % 0x1_0000
  {
    assert Pow2(8) == 256;
    PowAdds(8, 8);
    AndLowOnes(x, 16);
    BitAndOfWords(x, 0xffff);
    SmallIsItself(x % 0x1_0000);
  }

  /** `(x >> 8) & 0xff` and `x & 0xff` on a hextet. */
  function HighByte(x: nat): (r: nat)
    requires x < 0x1_0000
    ensures r == x / 256
  {
    HighByteIs(x);
    BitAnd(ShiftRight(x, 8), 0xff)
  }

  lemma HighByteIs(x: nat)
    requires x < 0x1_0000
    ensures BitAnd(ShiftRight(x, 8), 0xff) == x / 256
  {
    ShiftRightEight(x);
    var y := ShiftRight(x, 8);
    assert y < 256 && y % 256 == y;
    LowByteIs(y);
  }

  function LowByte(x: nat): (r: nat)
    requires x < 0x1_0000
    ensures r == x % 256
  {
    LowByteIs(x);
    BitAnd(x, 0xff)
  }

  lemma LowByteIs(x: nat)
    requires x < 0x1_0000
    ensures BitAnd(x, 0xff) == x % 256
  {
    assert Pow2(8) == 256;
    AndLowOnes(x, 8);
    BitAndOfWords(x, 0xff);
    SmallIsItself(x % 256);
  }

  /** Masking a hextet with its high ones, as the IPv6 prefixes do. */
  lemma MaskHextet(x: nat, k: nat, size: nat)
    requires x < 0x1_0000 && k <= 16 && size == Pow2(k)
    ensures size <= 0x1_0000 && BitAnd(x, 0x1_0000 - size) == x - x % size
  {
    assert Pow2(8) == 256;
    PowAdds(8, 8);
    PowsGrow(k, 16);
    BitAndOfWords(x, 0x1_0000 - size);
    AndHighOnes(x, k, 16);
    RoundsDown(x, size);
    SmallIsItself(x - x % size);
  }

  lemma RoundsDown(x: nat, size: nat)
    requires size > 0
    ensures 0 <= x - x % size <= x
  {
    assert x == size * (x / size) + x % size;
  }

  lemma SmallIsItself(x: nat)
    requires x < 0x8000_0000
    ensures ToInt32(x) == x
  {
  }
}
