/** Java integer arithmetic where it differs from Dafny's. */
module JavaInt {

  const INT_MIN: int := -0x8000_0000
  const INT_MAX: int := 0x7FFF_FFFF

  /** Java's `%` by a positive divisor: the remainder takes the sign of the
      dividend, where Dafny's `%` is Euclidean and never negative. */
  function JavaRem(a: int, b: int): (r: int)
    requires b > 0
    ensures a >= 0 ==> r == a % b
    ensures 0 <= a ==> 0 <= r < b
    ensures a < 0 ==> -b < r <= 0
  {
    if a >= 0 then a % b
    else -((-a) % b)
  }

  /** Java's `a / 2`: truncated toward zero, where Dafny's `/` rounds
      toward negative infinity for a negative dividend. */
  function JavaHalf(a: int): (q: int)
    ensures a >= 0 ==> q == a / 2
    ensures a >= 0 ==> a - 1 <= 2 * q <= a
    ensures a < 0 ==> a <= 2 * q <= a + 1
  {
    if a >= 0 then a / 2
    else -((-a) / 2)
  }

  /** Java's `a / b` for a positive divisor: truncated toward zero. */
  function JavaQuot(a: int, b: int): (q: int)
    requires b > 0
    ensures a >= 0 ==> q == a / b
  {
    if a >= 0 then a / b
    else -((-a) / b)
  }
}
