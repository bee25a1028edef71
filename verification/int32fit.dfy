/** The containment test of `start` as `SimplePoolSimulator` evaluates it, on 32-bit
    two's-complement `int`s, against the test over mathematical integers that
    the rest of the model uses. */
module Int32Fit {
  import opened Geometry
  import opened Simulator

  const IntMin: int := -0x8000_0000
  const IntMax: int := 0x7fff_ffff
  const Modulus: int := 0x1_0000_0000

  predicate IsInt32(v: int) {
    IntMin <= v <= IntMax
  }

  /** The value a 32-bit `int` operation yields for mathematical result `v`:
      the one 32-bit value congruent to `v`. */
  function Wrap(v: int): (r: int)
    ensures IsInt32(r) && (r - v) % Modulus == 0
    ensures IsInt32(v) ==> r == v
  {
    (v - IntMin) % Modulus + IntMin
  }

  /** The containment test with each sum and difference wrapped to 32 bits. */
  predicate FitsAsWritten(width: int, height: int, x: int, y: int, radius: int)
    requires IsInt32(width) && IsInt32(height) && IsInt32(x) && IsInt32(y) && IsInt32(radius)
  {
    !(Wrap(x - radius) < 0 || Wrap(x + radius) > width || Wrap(y - radius) < 0 || Wrap(y + radius) > height)
  }

  /** When no sum or difference leaves the 32-bit range, the test as written
      and the mathematical test agree. */
  lemma AsWrittenAgreesWithoutOverflow(width: int, height: int, x: int, y: int, radius: int)
    requires IsInt32(width) && IsInt32(height) && IsInt32(x) && IsInt32(y) && IsInt32(radius)
    requires IsInt32(x - radius) && IsInt32(x + radius) && IsInt32(y - radius) && IsInt32(y + radius)
    ensures FitsAsWritten(width, height, x, y, radius) <==> FitsOnTable(width, height, x, y, radius)
  {}

  /** A ball centred at the largest `int` with radius 1 passes the test as
      written on a 10 by 10 table, because `x + radius` wraps to the smallest
      `int`; its bounding box reaches far past the right edge. */
  lemma AsWrittenAdmitsOffTableBall()
    ensures FitsAsWritten(10, 10, IntMax, 5, 1)
    ensures !FitsOnTable(10, 10, IntMax, 5, 1)
    ensures Wrap(IntMax + 1) == IntMin
  {}

  /** With the mathematical test, every ball `start` accepts has its bounding
      circle on the table, whatever the size of the numbers. */
  lemma AcceptedBallIsOnTable(s: Sim, x: int, y: int, radius: int, speed: int, dx: real, dy: real, mag: real)
    requires mag >= 0.0 && mag * mag == dx * dx + dy * dy
    requires radius >= 0 && speed > 0 && FitsOnTable(s.width, s.height, x, y, radius) ==> dx != 0.0 || dy != 0.0
    requires Start(s, x, y, radius, speed, dx, dy, mag).Success?
    ensures Inside(s.width as real, s.height as real, Start(s, x, y, radius, speed, dx, dy, mag).value.ball.value)
    ensures x + radius <= s.width && y + radius <= s.height
  {}
}
