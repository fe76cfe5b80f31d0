/**
 * The JavaScript numbers this program can produce, with exact `real` arithmetic in place of
 * IEEE-754 doubles: a finite value, NaN (from `parseFloat` of a string without digits) or
 * positive infinity (from dividing a positive income by a zero wage).
 */
module Numbers {

  datatype Number = Finite(value: real) | NaN | Infinity

  /** A number that can never be infinite: what parsing and the arithmetic on parsed values yield. */
  type Amount = n: Number | !n.Infinity? witness Finite(0.0)

  /** `n > 0` (false for NaN). */
  predicate Positive(n: Number) {
    n.Infinity? || (n.Finite? && n.value > 0.0)
  }

  /** `n < 0` (false for NaN). */
  predicate Negative(n: Number) {
    n.Finite? && n.value < 0.0
  }

  /** `n >= k` (false for NaN). */
  predicate AtLeast(n: Number, k: real) {
    n.Infinity? || (n.Finite? && n.value >= k)
  }

  /** `n < k` (false for NaN and for infinity). */
  predicate Below(n: Number, k: real) {
    n.Finite? && n.value < k
  }

  /** `a * k` for a finite factor `k`. */
  function Scale(a: Amount, k: real): (r: Amount)
    ensures r.NaN? <==> a.NaN?
  {
    match a
    case Finite(v) => Finite(v * k)
    case NaN => NaN
  }

  /** `a - b`. */
  function Sub(a: Amount, b: Amount): (r: Amount)
    ensures r.NaN? <==> a.NaN? || b.NaN?
  {
    if a.Finite? && b.Finite? then Finite(a.value - b.value) else NaN
  }

  /** `a / k` for a finite, non-zero divisor `k`. */
  function DivBy(a: Amount, k: real): (r: Amount)
    requires k != 0.0
    ensures r.NaN? <==> a.NaN?
  {
    match a
    case Finite(v) => Finite(v / k)
    case NaN => NaN
  }

  /** `-a`. */
  function Neg(a: Amount): (r: Amount)
    ensures r.NaN? <==> a.NaN?
    ensures a.Finite? ==> r.value + a.value == 0.0
  {
    if a.Finite? then Finite(-a.value) else NaN
  }

  /** `a || 0`: NaN and zero are falsy, so both give 0. */
  function OrZero(a: Amount): (r: real)
    ensures a.Finite? ==> r == a.value
    ensures a.NaN? ==> r == 0.0
  {
    if a.Finite? then a.value else 0.0
  }
}
