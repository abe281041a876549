/**
 * Java's fixed-width integer arithmetic, stated over Dafny's unbounded `int`.
 * An `int` operation keeps the low 32 bits of the exact result and reads them
 * as a two's-complement number; a `long` operation does the same with 64 bits.
 */
module JavaArith {

  const TWO_31: int := 0x8000_0000
  const TWO_32: int := 0x1_0000_0000
  const TWO_63: int := 0x8000_0000_0000_0000
  const TWO_64: int := 0x1_0000_0000_0000_0000

  /** The values of a Java `int`. */
  type Int32 = x: int | -0x8000_0000 <= x < 0x8000_0000

  /** The values of a Java `long`. */
  type Int64 = x: int | -0x8000_0000_0000_0000 <= x < 0x8000_0000_0000_0000

  /** The `int` that a 32-bit operation with exact result `x` yields: the one value in range congruent to `x`. */
  function WrapInt32(x: int): (r: Int32)
    ensures (x - r) % TWO_32 == 0
    ensures -TWO_31 <= x < TWO_31 ==> r == x
  {
    var q := (x + TWO_31) / TWO_32;
    assert x - ((x + TWO_31) % TWO_32 - TWO_31) == q * TWO_32;
    (x + TWO_31) % TWO_32 - TWO_31
  }

  /** The `long` that a 64-bit operation with exact result `x` yields. */
  function WrapInt64(x: int): (r: Int64)
    ensures (x - r) % TWO_64 == 0
    ensures -TWO_63 <= x < TWO_63 ==> r == x
  {
    var q := (x + TWO_63) / TWO_64;
    assert x - ((x + TWO_63) % TWO_64 - TWO_63) == q * TWO_64;
    (x + TWO_63) % TWO_64 - TWO_63
  }

  /** Java `a * b` on two `int` operands. */
  function MulInt32(a: Int32, b: Int32): Int32
  {
    WrapInt32(a * b)
  }

  /** Java `a - b` on two `long` operands. */
  function SubInt64(a: Int64, b: Int64): Int64
  {
    WrapInt64(a - b)
  }

  /** Two `int` values that differ by a multiple of 2^32 are the same value. */
  lemma CongruentInt32AreEqual(a: Int32, b: Int32)
    requires (a - b) % TWO_32 == 0
    ensures a == b
  {
  }

  /** Wrapping an intermediate product does not change the wrapped final product:
      `(x mod 2^32) * 1000` and `x * 1000` agree modulo 2^32. */
  lemma {:induction false} WrapThenTimes1000(x: int)
    ensures WrapInt32(WrapInt32(x) * 1000) == WrapInt32(x * 1000)
  {
    var w := WrapInt32(x);
    var q := (x - w) / TWO_32;
    assert x - w == q * TWO_32;
    var a, b := WrapInt32(w * 1000), WrapInt32(x * 1000);
    var qa, qb := (w * 1000 - a) / TWO_32, (x * 1000 - b) / TWO_32;
    assert w * 1000 - a == qa * TWO_32;
    assert x * 1000 - b == qb * TWO_32;
    assert a - b == (qb - qa - q * 1000) * TWO_32;
    CongruentInt32AreEqual(a, b);
  }
}
