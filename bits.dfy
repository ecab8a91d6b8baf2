/** Unsigned and signed 32-bit quantities as the C# reader handles them: `uint`
    values, bitwise `&`, unchecked `uint` and `int` arithmetic, and the
    reinterpretation of a 32-bit pattern as a signed `int`. */
module Bits {

  const TwoTo31: int := 0x8000_0000
  const TwoTo32: int := 0x1_0000_0000

  /** A C# `uint`. */
  type uint32 = x: int | 0 <= x < 0x1_0000_0000

  /** A C# `int`. */
  type int32 = x: int | -0x8000_0000 <= x < 0x8000_0000

  function Pow2(k: nat): (r: nat)
    ensures r >= 1
  {
    if k == 0 then 1 else 2 * Pow2(k - 1)
  }

  /** Bitwise and of two non-negative numbers, bit by bit from the lowest. */
  function BitAnd(a: nat, b: nat): nat
    decreases a
  {
    if a == 0 || b == 0 then 0
    else 2 * BitAnd(a / 2, b / 2) + (a % 2) * (b % 2)
  }

  /** `a & m` never exceeds the mask `m`. */
  lemma {:induction false} BitAndBoundedByMask(a: nat, m: nat)
    ensures BitAnd(a, m) <= m
  {
    if a != 0 && m != 0 {
      BitAndBoundedByMask(a / 2, m / 2);
    }
  }

  /** `a & b` never exceeds either operand. */
  lemma BitAndBounded(a: nat, b: nat)
    ensures BitAnd(a, b) <= a && BitAnd(a, b) <= b
  {
    BitAndBoundedByMask(a, b);
    BitAndCommutes(a, b);
    BitAndBoundedByMask(b, a);
  }

  lemma {:induction false} BitAndCommutes(a: nat, b: nat)
    ensures BitAnd(a, b) == BitAnd(b, a)
  {
    if a != 0 && b != 0 {
      BitAndCommutes(a / 2, b / 2);
    }
  }

  /** Masking with `2^k - 1` keeps the low `k` bits: the result is `x % 2^k`. */
  lemma {:induction false} BitAndLowMask(x: nat, k: nat)
    ensures BitAnd(x, Pow2(k) - 1) == x % Pow2(k)
  {
    if k == 0 {
    } else if x == 0 {
    } else {
      var p := Pow2(k - 1);
      assert Pow2(k) - 1 == 2 * (p - 1) + 1;
      assert (Pow2(k) - 1) / 2 == p - 1 && (Pow2(k) - 1) % 2 == 1;
      BitAndLowMask(x / 2, k - 1);
      DivModTwo(x, p);
    }
  }

  /** `x % 2p == 2 * ((x / 2) % p) + x % 2`. */
  lemma DivModTwo(x: nat, p: nat)
    requires p >= 1
    ensures x % (2 * p) == 2 * ((x / 2) % p) + x % 2
  {
    var q := (x / 2) / p;
    var r := (x / 2) % p;
    assert x / 2 == p * q + r;
    assert x == 2 * (x / 2) + x % 2;
    assert x == (2 * p) * q + (2 * r + x % 2);
    ModUnique(x, 2 * p, q, 2 * r + x % 2);
  }

  /** Euclidean division is determined by quotient and remainder. */
  lemma ModUnique(x: int, d: int, q: int, s: int)
    requires d > 0 && x == d * q + s && 0 <= s < d
    ensures x % d == s
  {
    var q', s' := x / d, x % d;
    assert x == d * q' + s';
    if q' > q {
      assert d * q' - d * q == d * (q' - q);
      MulAtLeast(d, q' - q);
    } else if q' < q {
      assert d * q - d * q' == d * (q - q');
      MulAtLeast(d, q - q');
    }
  }

  lemma MulAtLeast(d: int, k: int)
    requires d > 0 && k >= 1
    ensures d * k >= d
  {
  }

  /** The `uint` result of `a & b`. */
  function And32(a: uint32, b: uint32): (r: uint32)
    ensures r <= a && r <= b
  {
    BitAndBounded(a, b);
    BitAnd(a, b)
  }

  /** Unchecked `uint` arithmetic keeps the low 32 bits of the exact value. */
  function WrapU32(x: int): (r: uint32)
    ensures 0 <= x < TwoTo32 ==> r == x
    ensures (r - x) % TwoTo32 == 0
  {
    x % TwoTo32
  }

  /** Unchecked `int` arithmetic: the exact value taken modulo 2^32 into the
      signed range. */
  function Wrap32(x: int): (r: int32)
    ensures -TwoTo31 <= x < TwoTo31 ==> r == x
    ensures (r - x) % TwoTo32 == 0
  {
    (x + TwoTo31) % TwoTo32 - TwoTo31
  }

  /** `unchecked((int)p)`: a 32-bit pattern read as a signed `int`. */
  function AsSigned32(p: uint32): (r: int32)
    ensures r < 0 <==> p >= TwoTo31
    ensures r % TwoTo32 == p
  {
    if p < TwoTo31 then p else p - TwoTo32
  }
}
