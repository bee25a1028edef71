/** Small facts about products and quotients of reals. Each is stated over
    plain variables so that the solver meets as few product terms at once as
    possible. */
module RealFacts {

  lemma NonNegativeProduct(a: real, c: real)
    requires a >= 0.0 && c >= 0.0
    ensures a * c >= 0.0
  {}

  lemma ZeroProduct(a: real, c: real)
    requires a * c == 0.0
    ensures a == 0.0 || c == 0.0
  {}

  lemma SquareNonNegative(a: real)
    ensures a * a >= 0.0
  {}

  lemma NegatedSquare(a: real)
    ensures (-1.0 * a) * (-1.0 * a) == a * a
  {}

  lemma Divided(d: real, m: real)
    requires m != 0.0
    ensures (d / m) * m == d
  {}

  /** A factor times a positive square is zero only if the factor is. */
  lemma ZeroFactor(a: real, m: real)
    requires m > 0.0 && a * (m * m) == 0.0
    ensures a == 0.0
  {
    ZeroProduct(a, m * m);
    if m * m == 0.0 {
      ZeroProduct(m, m);
    }
  }

  /** A non-zero vector has a positive length. */
  lemma PositiveLength(dx: real, dy: real, mag: real)
    requires mag >= 0.0 && mag * mag == dx * dx + dy * dy
    requires dx != 0.0 || dy != 0.0
    ensures mag > 0.0
  {
    if mag == 0.0 {
      SquareNonNegative(dx);
      SquareNonNegative(dy);
      assert dx * dx == 0.0 && dy * dy == 0.0;
      ZeroProduct(dx, dx);
      ZeroProduct(dy, dy);
    }
  }

  /** If `(ux, uy)` scaled by the length of `(dx, dy)` is `(dx, dy)`, it has length one. */
  lemma UnitFrom(dx: real, dy: real, mag: real, ux: real, uy: real)
    requires mag > 0.0 && mag * mag == dx * dx + dy * dy
    requires ux * mag == dx && uy * mag == dy
    ensures ux * ux + uy * uy == 1.0
  {
    var k := ux * ux + uy * uy - 1.0;
    assert k * (mag * mag) == 0.0;
    ZeroFactor(k, mag);
  }

  /** Dividing a vector by its length gives a unit vector on the same line,
      each component keeping its sign. */
  lemma Normalised(dx: real, dy: real, mag: real)
    requires mag > 0.0 && mag * mag == dx * dx + dy * dy
    ensures (dx / mag) * (dx / mag) + (dy / mag) * (dy / mag) == 1.0
    ensures (dx / mag > 0.0 <==> dx > 0.0) && (dx / mag < 0.0 <==> dx < 0.0)
    ensures (dy / mag > 0.0 <==> dy > 0.0) && (dy / mag < 0.0 <==> dy < 0.0)
    ensures (dx / mag) * dy == (dy / mag) * dx
  {
    Divided(dx, mag);
    Divided(dy, mag);
    UnitFrom(dx, dy, mag, dx / mag, dy / mag);
  }
}
