/** Java's fixed-width integers and Math.round, stated over unbounded integers. */
module Numbers {

  const LONG_MIN: int := -0x8000_0000_0000_0000
  const LONG_MAX: int := 0x7FFF_FFFF_FFFF_FFFF
  const INT_MIN: int := -0x8000_0000
  const INT_MAX: int := 0x7FFF_FFFF

  predicate InLong(x: int) { LONG_MIN <= x <= LONG_MAX }
  predicate InInt(x: int) { INT_MIN <= x <= INT_MAX }

  /** Java's narrowing cast `(int)` of a long: keeps the low 32 bits as a
      two's-complement value. */
  function ToInt32(x: int): (r: int)
    ensures InInt(r)
    ensures (x - r) % 0x1_0000_0000 == 0
    ensures InInt(x) ==> r == x
  {
    (x - INT_MIN) % 0x1_0000_0000 + INT_MIN
  }

  /** Math.round(n / d) for a positive divisor: floor(n / d + 1/2), that is the
      nearest integer with halves rounded up. */
  function RoundHalfUp(n: int, d: int): (r: int)
    requires d > 0
    ensures 2 * d * r <= 2 * n + d < 2 * d * r + 2 * d
  {
    var q := (2 * n + d) / (2 * d);
    DivBounds(2 * n + d, 2 * d);
    q
  }

  /** Math.round(n / d) for any non-zero divisor. */
  function RoundQuotient(n: int, d: int): (r: int)
    requires d != 0
    ensures d > 0 ==> 2 * d * r <= 2 * n + d < 2 * d * r + 2 * d
    ensures d < 0 ==> 2 * d * r >= 2 * n + d > 2 * d * r + 2 * d
  {
    if d > 0 then RoundHalfUp(n, d) else RoundHalfUp(-n, -d)
  }

  lemma DivBounds(a: int, b: int)
    requires b > 0
    ensures b * (a / b) <= a < b * (a / b) + b
  {
  }

  lemma MulMonotone(c: int, a: int, b: int)
    requires c >= 0 && a <= b
    ensures c * a <= c * b
  {
  }

  /** A quotient of a numerator between 0 and the divisor rounds into [0, scale]. */
  lemma {:induction false} RoundedShareBounds(part: int, whole: int, scale: int)
    requires 0 <= part <= whole && whole > 0 && scale >= 0
    ensures 0 <= RoundHalfUp(part * scale, whole) <= scale
  {
    var r := RoundHalfUp(part * scale, whole);
    MulMonotone(scale, part, whole);
    if r < 0 {
      MulMonotone(2 * whole, r + 1, 0);
    }
    if r > scale {
      MulMonotone(2 * whole, scale + 1, r);
    }
  }
}
