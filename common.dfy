/** Failure-carrying wrappers and the pieces of Go arithmetic shared by every
    module of the model. `None` stands for Go's nil; `Err` for a returned
    non-nil error. */
module Common {

  datatype Option<+T> = None | Some(value: T)

  datatype Result<+T, +E> = Ok(value: T) | Err(error: E)

  /** Go's builtin `min` on two ints. */
  function Min(a: int, b: int): (m: int)
    ensures m <= a && m <= b && (m == a || m == b)
  {
    if a <= b then a else b
  }

  function Abs(a: int): nat
  {
    if a < 0 then -a else a
  }

  /** Go's `%` on ints: the remainder of division truncated toward zero, so
      it takes the sign of the dividend, where Dafny's `%` never goes
      negative; the two agree on non-negative dividends. Go panics on a zero
      divisor. */
  function GoRem(a: int, b: int): (r: int)
    requires b != 0
    ensures a >= 0 ==> 0 <= r < Abs(b) && r == a % b
    ensures a < 0 ==> 0 - Abs(b) < r <= 0 && -r == (-a) % b
  {
    if a >= 0 then a % b else -((-a) % b)
  }

  /** The fractional part that `math.Modf` returns, for the non-negative
      values the model passes to it. */
  function Frac(x: real): (f: real)
    requires x >= 0.0
    ensures 0.0 <= f < 1.0
    ensures (x - f).Floor as real == x - f
  {
    x - x.Floor as real
  }
}
