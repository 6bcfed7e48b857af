/**
  Java's `double` and boxed `Double`, as far as the zoom context needs them.
  A finite value is an exact real (rounding is not modelled); the two
  infinities and NaN are tags. Comparisons follow IEEE 754: every ordered
  comparison that involves NaN is false.
*/
module JavaDouble {

  datatype Double = Num(v: real) | PInf | NInf | NaN

  /** An element of a `List<Double>`: a reference that may be null. */
  datatype Entry = Null | Boxed(value: Double)

  /** `a <= b` on doubles. */
  predicate Le(a: Double, b: Double) {
    match (a, b)
    case (NaN, _) => false
    case (_, NaN) => false
    case (NInf, _) => true
    case (_, PInf) => true
    case (PInf, _) => false
    case (_, NInf) => false
    case (Num(x), Num(y)) => x <= y
  }

  /** `a >= b` on doubles. */
  predicate Ge(a: Double, b: Double) {
    Le(b, a)
  }

  /** `Double.isInfinite(d)` */
  predicate IsInfinite(d: Double) {
    d.PInf? || d.NInf?
  }

  /** `Double.isNaN(d)` */
  predicate IsNaN(d: Double) {
    d.NaN?
  }
}
