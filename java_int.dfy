/**
 * Java's 32-bit `int` arithmetic. The settings setters of the service
 * multiply an `int` by a unit factor in `int` arithmetic, so a large
 * setting wraps around before it is stored.
 */
module JavaInt {

  const MinInt: int := -0x8000_0000
  const MaxInt: int := 0x7fff_ffff
  const Modulus: int := 0x1_0000_0000

  /** A value of Java type `int`. */
  type Int32 = x: int | -0x8000_0000 <= x <= 0x7fff_ffff

  /** Two's-complement reduction of an unbounded integer to an `int`. */
  function Wrap(x: int): (r: Int32)
    ensures MinInt <= x <= MaxInt ==> r == x
    ensures (x - r) % Modulus == 0
  {
    var low := x % Modulus;
    if low > MaxInt then low - Modulus else low
  }

  /** Java's `a * b` on two `int` operands. */
  function Mul32(a: Int32, b: Int32): (r: Int32)
    ensures MinInt <= a * b <= MaxInt ==> r == a * b
    ensures (a * b - r) % Modulus == 0
  {
    Wrap(a * b)
  }
}
