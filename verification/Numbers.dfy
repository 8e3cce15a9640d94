/** Fixed-width arithmetic of the chain, written out over unbounded integers. */
module Numbers {

  const U64_MOD := 0x1_0000_0000_0000_0000

  type uint64 = x: int | 0 <= x < 0x1_0000_0000_0000_0000

  type int64 = x: int | -0x8000_0000_0000_0000 <= x < 0x8000_0000_0000_0000

  /** Unsigned addition with wrap-around. */
  function Add64(a: uint64, b: uint64): (r: uint64) {
    if a + b < U64_MOD then a + b else a + b - U64_MOD
  }

  /** Unsigned subtraction with wrap-around. */
  function Sub64(a: uint64, b: uint64): (r: uint64) {
    if b <= a then a - b else a - b + U64_MOD
  }

  /** Unsigned multiplication with wrap-around. */
  function Mul64(a: uint64, b: uint64): (r: uint64) {
    (a * b) % U64_MOD
  }

  /** Signed addition with two's-complement wrap-around. */
  function AddSigned(a: int64, b: int64): (r: int64) {
    if a + b >= 0x8000_0000_0000_0000 then a + b - U64_MOD
    else if a + b < -0x8000_0000_0000_0000 then a + b + U64_MOD
    else a + b
  }

  /** A wrapped product never exceeds the true product. */
  lemma MulWrapBelow(a: uint64, b: uint64)
    ensures Mul64(a, b) <= a * b
    ensures a * b < U64_MOD ==> Mul64(a, b) == a * b
  {
    var x := a * b;
    assert x >= 0;
    assert x % U64_MOD <= x;
  }

  /** A quotient is bounded by q as soon as the dividend is at most q times the divisor. */
  lemma DivBelow(x: int, d: int, q: int)
    requires d > 0
    requires x <= q * d
    ensures x / d <= q
  {
    DivBounds(x, d);
    var k := x / d;
    assert k * d <= q * d;
    assert (k - q) * d <= 0;
    assert k - q <= 0;
  }

  /** The defining inequalities of the floor quotient. */
  lemma DivBounds(x: int, d: int)
    requires d > 0
    ensures (x / d) * d <= x < (x / d + 1) * d
  {
    assert x == (x / d) * d + x % d;
    assert 0 <= x % d < d;
  }

  /** Wrapping addition is addition modulo the word size. */
  lemma AddWraps(a: uint64, b: uint64)
    ensures Add64(a, b) == (a + b) % U64_MOD
  {}

  /** Reducing a summand first does not change a sum modulo the word size. */
  lemma {:induction false} ModAdd(a: int, y: int)
    ensures (a % U64_MOD + y) % U64_MOD == (a + y) % U64_MOD
  {
    var q := a / U64_MOD;
    assert a == q * U64_MOD + a % U64_MOD;
    assert a + y == q * U64_MOD + (a % U64_MOD + y);
  }
}
