/** Integer division as the C code performs it. */
module CInt {

  /** C's `/` for a positive divisor: the quotient is truncated toward zero,
      so the remainder takes the sign of the dividend (Dafny's own `/` is
      Euclidean and rounds negative dividends down instead). */
  function Quot(a: int, b: int): (q: int)
    requires b > 0
    ensures 0 <= a ==> q * b <= a < q * b + b
    ensures a < 0 ==> q * b - b < a <= q * b
  {
    if a >= 0 then a / b else -((-a) / b)
  }
}
