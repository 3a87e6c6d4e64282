/**
 * Java's (and Kotlin's) 32-bit `int` and the integer operators the core
 * relies on, written out over unbounded integers.
 */
module JavaInt {

  const MIN_VALUE: int := -0x8000_0000
  const MAX_VALUE: int := 0x7FFF_FFFF
  const TWO_32: int := 0x1_0000_0000

  /** A value of the 32-bit signed `int`. */
  type Int32 = x: int | MIN_VALUE <= x <= MAX_VALUE

  /** The two's-complement bit pattern of `x`, read as an unsigned number. */
  function Unsigned(x: int): (u: nat)
    ensures u < TWO_32
    ensures (x - u) % TWO_32 == 0
    ensures 0 <= x < TWO_32 ==> u == x
  {
    x % TWO_32
  }

  /** The `int` with the same low 32 bits as `x`: what Java's arithmetic yields on overflow. */
  function Wrap(x: int): (r: Int32)
    ensures (x - r) % TWO_32 == 0
    ensures MIN_VALUE <= x <= MAX_VALUE ==> r == x
    ensures 0 <= x < TWO_32 ==> Unsigned(r) == x
  {
    var u := Unsigned(x);
    if u <= MAX_VALUE then u else u - TWO_32
  }

  /** Java's `a / 2`: half of `a`, truncated toward zero. */
  function Half(a: int): (h: int)
    ensures a >= 0 ==> 0 <= h && 0 <= a - 2 * h <= 1
    ensures a < 0 ==> h <= 0 && -1 <= a - 2 * h <= 0
  {
    if a >= 0 then a / 2 else -((-a) / 2)
  }

  /** Java's and Kotlin's `a / b` for a positive `b`: the quotient truncated toward zero. */
  function Quot(a: int, b: int): (q: int)
    requires b > 0
    ensures a >= 0 ==> 0 <= q && b * q <= a < b * q + b
    ensures a < 0 ==> q <= 0 && b * q - b < a <= b * q
  {
    if a >= 0 then a / b else -((-a) / b)
  }

  /**
   * Java's and Kotlin's `a % b` for a positive `b`: the remainder takes the sign of `a`,
   * and quotient and remainder put `a` back together.
   */
  function Rem(a: int, b: int): (r: int)
    requires b > 0
    ensures a >= 0 ==> 0 <= r < b && r == a % b
    ensures a < 0 ==> -b < r <= 0
    ensures a == b * Quot(a, b) + r
  {
    if a >= 0 then
      a % b
    else
      assert -a == b * ((-a) / b) + (-a) % b;
      -((-a) % b)
  }

  /** Kotlin's `abs` on `Int`: the negation wraps, so `abs(MIN_VALUE) == MIN_VALUE`. */
  function KotlinAbs(x: Int32): (r: Int32)
    ensures x != MIN_VALUE ==> r >= 0 && (r == x || r == -x)
    ensures x == MIN_VALUE ==> r == MIN_VALUE
  {
    if x < 0 then Wrap(-(x as int)) else x
  }

  /** `Math.min` on two `int`s. */
  function Min(a: Int32, b: Int32): (m: Int32)
    ensures m <= a && m <= b
    ensures m == a || m == b
  {
    if a <= b then a else b
  }
}
