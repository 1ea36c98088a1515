/** The Java integer widths the data-access object computes with. */
module JavaInts {

  const INTEGER_MIN_VALUE: int := -0x8000_0000
  /** `Integer.MAX_VALUE`, the sentinel the batch reads refuse as a page size. */
  const INTEGER_MAX_VALUE: int := 0x7fff_ffff
  const LONG_MIN_VALUE: int := -0x8000_0000_0000_0000
  const LONG_MAX_VALUE: int := 0x7fff_ffff_ffff_ffff
  const LONG_MODULUS: int := 0x1_0000_0000_0000_0000

  /** A Java `int`. */
  type Int32 = x: int | INTEGER_MIN_VALUE <= x <= INTEGER_MAX_VALUE

  /** A Java `long`. */
  type Int64 = x: int | LONG_MIN_VALUE <= x <= LONG_MAX_VALUE

  /** Java's `long + int`: the exact sum, reduced into the 64-bit range with
      two's-complement wrap-around. */
  function AddLong(a: Int64, b: Int32): (r: Int64)
    ensures LONG_MIN_VALUE <= a + b <= LONG_MAX_VALUE ==> r == a + b
    ensures a + b > LONG_MAX_VALUE ==> r == a + b - LONG_MODULUS
    ensures a + b < LONG_MIN_VALUE ==> r == a + b + LONG_MODULUS
  {
    (a + b - LONG_MIN_VALUE) % LONG_MODULUS + LONG_MIN_VALUE
  }
}
