/** Reals extended with Python's `float('-inf')` and `float('inf')`, which the configuration uses as
  * default limits. */
module XReals {

  datatype XReal = NegInf | Fin(r: real) | PosInf

  predicate Le(a: XReal, b: XReal) {
    match (a, b)
    case (NegInf, _) => true
    case (_, PosInf) => true
    case (Fin(x), Fin(y)) => x <= y
    case _ => false
  }

  predicate Lt(a: XReal, b: XReal) {
    Le(a, b) && a != b
  }

  /** Python's `max(a, b)`: `a` unless `b` is strictly greater. */
  function Max(a: XReal, b: XReal): (r: XReal)
    ensures Le(a, r) && Le(b, r) && (r == a || r == b)
  {
    if Lt(a, b) then b else a
  }

  /** Python's `min(a, b)`: `a` unless `b` is strictly smaller. */
  function Min(a: XReal, b: XReal): (r: XReal)
    ensures Le(r, a) && Le(r, b) && (r == a || r == b)
  {
    if Lt(b, a) then b else a
  }

  lemma LeTransitive(a: XReal, b: XReal, c: XReal)
    requires Le(a, b) && Le(b, c)
    ensures Le(a, c)
  {
  }

  lemma LeTotal(a: XReal, b: XReal)
    ensures Le(a, b) || Le(b, a)
  {
  }
}
