/** What the model keeps of IEEE double arithmetic beyond exact reals: a
    quotient of zero by zero is NaN, and every ordered comparison with NaN
    is false. */
module Doubles {

  /** A quotient that is either NaN or a number. */
  datatype Mean = NaN | Finite(v: real)

  /** `a < b` on doubles: false whenever either side is NaN. */
  predicate Less(a: Mean, b: Mean)
  {
    a.Finite? && b.Finite? && a.v < b.v
  }
}
