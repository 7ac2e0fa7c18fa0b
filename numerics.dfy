/** Numeric helpers for the Java arithmetic the model needs: `Math.ceil`,
    `Math.max`/`Math.min`, the `(int)` cast of a double and 32-bit `Integer`
    wrap-around. */
module Numerics {

  /** `Math.ceil` on an exact real. */
  function Ceil(x: real): (c: int)
    ensures c as real - 1.0 < x <= c as real
  {
    if x.Floor as real == x then x.Floor else x.Floor + 1
  }

  /** The `(int)` cast of a double: truncation toward zero. */
  function TruncateToInt(x: real): (t: int)
    ensures 0.0 <= x ==> 0 <= t && t as real <= x < t as real + 1.0
    ensures x < 0.0 ==> t <= 0 && t as real - 1.0 < x <= t as real
  {
    if 0.0 <= x then x.Floor else -((-x).Floor)
  }

  function MaxInt(a: int, b: int): int { if a >= b then a else b }

  function MaxReal(a: real, b: real): real { if a >= b then a else b }

  function MinReal(a: real, b: real): real { if a <= b then a else b }

  const Int32Min: int := -0x8000_0000
  const Int32Max: int := 0x7FFF_FFFF
  const Int32Modulus: int := 0x1_0000_0000

  predicate InInt32(x: int) { Int32Min <= x <= Int32Max }

  /** The values a Java `int` (or a non-null `Integer`) can hold. */
  type Int32 = x: int | InInt32(x)

  /** Two's-complement wrap of a mathematical integer into a Java `int`. */
  function WrapInt32(x: int): (r: int)
    ensures InInt32(r)
    ensures (r - x) % 0x1_0000_0000 == 0
    ensures InInt32(x) ==> r == x
  {
    (x + 0x8000_0000) % 0x1_0000_0000 - 0x8000_0000
  }

  /** Java `int` addition wraps: adding wrapped operands and wrapping gives the wrapped sum. */
  lemma WrapAdd(a: int, b: int)
    ensures WrapInt32(WrapInt32(a) + WrapInt32(b)) == WrapInt32(a + b)
  {
    var x, y := WrapInt32(a), WrapInt32(b);
    var lhs, rhs := WrapInt32(x + y), WrapInt32(a + b);
    CongruentSum(x, a, y, b);
    SameWrap(x + y, a + b);
  }

  lemma CongruentSum(x: int, a: int, y: int, b: int)
    requires (x - a) % Int32Modulus == 0 && (y - b) % Int32Modulus == 0
    ensures ((x + y) - (a + b)) % Int32Modulus == 0
  {
    var p, q := (x - a) / Int32Modulus, (y - b) / Int32Modulus;
    assert x - a == p * Int32Modulus;
    assert y - b == q * Int32Modulus;
    assert (x + y) - (a + b) == (p + q) * Int32Modulus;
  }

  /** Two integers that differ by a multiple of 2^32 wrap to the same `int`. */
  lemma SameWrap(u: int, v: int)
    requires (u - v) % Int32Modulus == 0
    ensures WrapInt32(u) == WrapInt32(v)
  {
    var ru, rv := WrapInt32(u), WrapInt32(v);
    var pu, pv, p := (ru - u) / Int32Modulus, (rv - v) / Int32Modulus, (u - v) / Int32Modulus;
    assert ru - u == pu * Int32Modulus;
    assert rv - v == pv * Int32Modulus;
    assert u - v == p * Int32Modulus;
    assert ru - rv == (pu - pv + p) * Int32Modulus;
  }

  /** Java `int` subtraction wraps: subtracting from a wrapped value and wrapping gives the wrapped difference. */
  lemma WrapSubtract(a: int, b: int)
    ensures WrapInt32(WrapInt32(a) - b) == WrapInt32(a - b)
  {
    CongruentSum(WrapInt32(a), a, -b, -b);
    SameWrap(WrapInt32(a) - b, a - b);
  }
}
