/** Real-valued stand-ins for the JavaScript `Math` members the particle field
    calls. Square root, cosine, sine and pi have no closed form over `real`, so
    they are supplied from outside, together with the laws the model relies on. */
module RealMath {

  /** `Math.PI`, `Math.sqrt`, `Math.cos` and `Math.sin`. */
  datatype Math = Math(pi: real, sqrt: real -> real, cos: real -> real, sin: real -> real)

  /** `c` and `s` are the cosine and sine of one angle. */
  predicate OnUnitCircle(c: real, s: real) {
    c * c + s * s == 1.0
  }

  /** The laws of the supplied functions: square roots of non-negative
      numbers are non-negative and square back, and cosine and sine of every
      angle lie on the unit circle. */
  ghost predicate Lawful(m: Math) {
    && (forall a :: 0.0 <= a ==> 0.0 <= m.sqrt(a) && m.sqrt(a) * m.sqrt(a) == a)
    && (forall a :: OnUnitCircle(m.cos(a), m.sin(a)))
  }

  function Min(a: real, b: real): (r: real)
    ensures r <= a && r <= b
    ensures r == a || r == b
  {
    if a <= b then a else b
  }

  function Max(a: real, b: real): (r: real)
    ensures a <= r && b <= r
    ensures r == a || r == b
  {
    if a >= b then a else b
  }

  /** A number whose square is at most one lies in [-1, 1]. */
  lemma SquareAtMostOne(c: real)
    requires c * c <= 1.0
    ensures -1.0 <= c <= 1.0
  {
  }

  /** Cosine and sine each lie in [-1, 1]. */
  lemma UnitCircleBounds(c: real, s: real)
    requires OnUnitCircle(c, s)
    ensures -1.0 <= c <= 1.0 && -1.0 <= s <= 1.0
  {
    SquareAtMostOne(c);
    SquareAtMostOne(s);
  }
}
