/** The unit tests' scenarios on a 10 by 10 table under the simple model,
    stated as lemmas about the model. */
module Scenarios {
  import opened Wrappers
  import opened SimStatus
  import opened Geometry
  import opened Simulator

  /** The table every scenario uses. */
  function Table(): (s: Sim)
    ensures s.width == 10 && s.height == 10 && s.model == Simple && s.speed == 0.0 && s.status == NotSetUp
  {
    New(10, 10, "simple").value
  }

  /** Start (2, 2), radius 1, speed 10, direction (2, 1), then one advance:
      the right edge is reached first, and the x velocity is minus twice the
      square root of five, about -4.472. */
  lemma UpRightHitsRightEdge(mag: real)
    requires mag > 0.0 && mag * mag == 5.0
    ensures Start(Table(), 2, 2, 1, 10, 2.0, 1.0, mag).Success?
    ensures var a := Advance(Start(Table(), 2, 2, 1, 10, 2.0, 1.0, mag).value);
      && a.status == HitRight && a.speed == 5.0
      && VelocityX(a) == -10.0 / mag
      && -4.473 < VelocityX(a) < -4.471
  {
    var s := Start(Table(), 2, 2, 1, 10, 2.0, 1.0, mag).value;
    var b := s.ball.value;
    var top := TimeToHit(Top, 10.0, 10.0, b, 10.0);
    var right := TimeToHit(Right, 10.0, 10.0, b, 10.0);
    assert b.dx == 2.0 / mag && b.dy == 1.0 / mag;
    assert right < top;
    assert Earliest(Right, 10.0, 10.0, b, 10.0);
  }

  /** Direction (-2, 1): the left edge comes first and the x velocity turns
      positive, about 4.472. */
  lemma UpLeftHitsLeftEdge(mag: real)
    requires mag > 0.0 && mag * mag == 5.0
    ensures Start(Table(), 2, 2, 1, 10, -2.0, 1.0, mag).Success?
    ensures var a := Advance(Start(Table(), 2, 2, 1, 10, -2.0, 1.0, mag).value);
      && a.status == HitLeft && a.speed == 5.0
      && VelocityX(a) == 10.0 / mag
      && 4.471 < VelocityX(a) < 4.473
  {
    var s := Start(Table(), 2, 2, 1, 10, -2.0, 1.0, mag).value;
    var b := s.ball.value;
    assert b.dx == -2.0 / mag && b.dy == 1.0 / mag;
    assert TimeToHit(Left, 10.0, 10.0, b, 10.0) < TimeToHit(Top, 10.0, 10.0, b, 10.0);
    assert Earliest(Left, 10.0, 10.0, b, 10.0);
  }

  /** Direction (2, -1): the bottom edge comes first, so the x velocity keeps
      its sign, about 4.472. */
  lemma DownRightHitsBottomEdge(mag: real)
    requires mag > 0.0 && mag * mag == 5.0
    ensures Start(Table(), 2, 2, 1, 10, 2.0, -1.0, mag).Success?
    ensures var a := Advance(Start(Table(), 2, 2, 1, 10, 2.0, -1.0, mag).value);
      && a.status == HitBottom && a.speed == 5.0
      && VelocityX(a) == 10.0 / mag
      && 4.471 < VelocityX(a) < 4.473
  {
    var s := Start(Table(), 2, 2, 1, 10, 2.0, -1.0, mag).value;
    var b := s.ball.value;
    assert b.dx == 2.0 / mag && b.dy == -1.0 / mag;
    assert TimeToHit(Bottom, 10.0, 10.0, b, 10.0) < TimeToHit(Right, 10.0, 10.0, b, 10.0);
    assert Earliest(Bottom, 10.0, 10.0, b, 10.0);
  }

  /** Direction (-2, -1): the left edge comes first and the x velocity turns
      positive, about 4.472. */
  lemma DownLeftHitsLeftEdge(mag: real)
    requires mag > 0.0 && mag * mag == 5.0
    ensures Start(Table(), 2, 2, 1, 10, -2.0, -1.0, mag).Success?
    ensures var a := Advance(Start(Table(), 2, 2, 1, 10, -2.0, -1.0, mag).value);
      && a.status == HitLeft && a.speed == 5.0
      && VelocityX(a) == 10.0 / mag
      && 4.471 < VelocityX(a) < 4.473
  {
    var s := Start(Table(), 2, 2, 1, 10, -2.0, -1.0, mag).value;
    var b := s.ball.value;
    assert b.dx == -2.0 / mag && b.dy == -1.0 / mag;
    assert TimeToHit(Left, 10.0, 10.0, b, 10.0) < TimeToHit(Bottom, 10.0, 10.0, b, 10.0);
    assert Earliest(Left, 10.0, 10.0, b, 10.0);
  }

  /** Direction (d, 0) for any d > 0, the test's (1, 0) among them: straight
      to the right edge, stopping at x = 9 with x velocity -5. */
  lemma RightwardsHitsRightEdge(d: real)
    requires d > 0.0
    ensures Start(Table(), 2, 2, 1, 10, d, 0.0, d).Success?
    ensures var a := Advance(Start(Table(), 2, 2, 1, 10, d, 0.0, d).value);
      a.status == HitRight && a.ball.value.x == 9.0 && VelocityX(a) == -5.0
  {
    StartsAlong(d, 0.0, 1.0, 0.0);
    RightwardsStep(Start(Table(), 2, 2, 1, 10, d, 0.0, d).value);
  }

  /** Direction (0, d) for any d > 0, the test's (0, 1) among them: straight
      up to the top edge, stopping at y = 9 with x velocity still 0. */
  lemma UpwardsHitsTopEdge(d: real)
    requires d > 0.0
    ensures Start(Table(), 2, 2, 1, 10, 0.0, d, d).Success?
    ensures var a := Advance(Start(Table(), 2, 2, 1, 10, 0.0, d, d).value);
      a.status == HitTop && a.ball.value.y == 9.0 && VelocityX(a) == 0.0
  {
    StartsAlong(0.0, d, 0.0, 1.0);
    UpwardsStep(Start(Table(), 2, 2, 1, 10, 0.0, d, d).value);
  }

  /** Starting at (2, 2), radius 1, speed 10 along an axis, in either
      direction and with any positive length, stores the unit vector
      (ux, uy) of that axis and direction. The length of an axis-aligned
      vector is the absolute value of its one non-zero component. */
  lemma StartsAlong(dx: real, dy: real, ux: real, uy: real)
    requires
      || (dx > 0.0 && dy == 0.0 && ux == 1.0 && uy == 0.0)
      || (dx < 0.0 && dy == 0.0 && ux == -1.0 && uy == 0.0)
      || (dx == 0.0 && dy > 0.0 && ux == 0.0 && uy == 1.0)
      || (dx == 0.0 && dy < 0.0 && ux == 0.0 && uy == -1.0)
    ensures Start(Table(), 2, 2, 1, 10, dx, dy, Abs(dx) + Abs(dy)).Success?
    ensures var s := Start(Table(), 2, 2, 1, 10, dx, dy, Abs(dx) + Abs(dy)).value;
      && s.width == 10 && s.height == 10 && s.model == Simple && s.speed == 10.0
      && s.ball == Some(Ball(2.0, 2.0, 1.0, ux, uy))
  {
    var mag := Abs(dx) + Abs(dy);
    assert mag * mag == dx * dx + dy * dy;
    if dx > 0.0 {
      assert dx / mag == 1.0 && dy / mag == 0.0;
    } else if dx < 0.0 {
      assert dx / mag == -1.0 && dy / mag == 0.0;
    } else if dy > 0.0 {
      assert dx / mag == 0.0 && dy / mag == 1.0;
    } else {
      assert dx / mag == 0.0 && dy / mag == -1.0;
    }
  }

  /** Moving right from (2, 2) at speed 10: one advance. */
  lemma RightwardsStep(s: Sim)
    requires s.width == 10 && s.height == 10 && s.model == Simple && s.speed == 10.0
    requires s.ball == Some(Ball(2.0, 2.0, 1.0, 1.0, 0.0))
    ensures var a := Advance(s);
      a.status == HitRight && a.ball.value.x == 9.0 && VelocityX(a) == -5.0
  {
    StepFrom(s, Right);
  }

  /** Moving up from (2, 2) at speed 10: one advance. */
  lemma UpwardsStep(s: Sim)
    requires s.width == 10 && s.height == 10 && s.model == Simple && s.speed == 10.0
    requires s.ball == Some(Ball(2.0, 2.0, 1.0, 0.0, 1.0))
    ensures var a := Advance(s);
      a.status == HitTop && a.ball.value.y == 9.0 && VelocityX(a) == 0.0
  {
    StepFrom(s, Top);
  }

  /** One advance from speed 10 on the 10 by 10 table: the edge reached
      first decides the status, the new position and the new direction. */
  lemma StepFrom(s: Sim, e: Edge)
    requires s.width == 10 && s.height == 10 && s.model == Simple && s.speed == 10.0 && s.ball.Some?
    requires Earliest(e, 10.0, 10.0, s.ball.value, 10.0)
    ensures var a := Advance(s);
      && a.status == HitStatus(e) && a.speed == 5.0
      && Bounced(e, 10.0, 10.0, s.ball.value, a.ball.value)
  {}

  /** The scenarios' start at (2, 2), radius 1, speed 10, with a direction
      that is already of unit length, stores that direction unchanged. */
  lemma StartsAt(dx: real, dy: real)
    requires dx * dx + dy * dy == 1.0
    ensures Start(Table(), 2, 2, 1, 10, dx, dy, 1.0).Success?
    ensures var s := Start(Table(), 2, 2, 1, 10, dx, dy, 1.0).value;
      s.ball == Some(Ball(2.0, 2.0, 1.0, dx, dy)) && s.speed == 10.0 && s.model == Simple
  {}

  /** The rejected inputs of the tests, each with the error the checks' order gives it. */
  lemma RejectedInputs()
    ensures New(-10, 2, "simple") == Failure(InvalidDimensions)
    ensures New(10, -2, "simple") == Failure(InvalidDimensions)
    ensures New(10, -2, "friction") == Failure(InvalidDimensions)
    ensures New(-10, 2, "xyz") == Failure(InvalidDimensions)
    ensures New(10, 10, "xyz") == Failure(InvalidType)
    ensures Start(Table(), 2, 3, -4, 5, 0.0, 2.0, 2.0) == Failure(NegativeRadius)
    ensures Start(Table(), 2, 3, 4, -95, 0.0, 2.0, 2.0) == Failure(NonPositiveSpeed)
    ensures Start(Table(), 2, 3, 4, 0, 0.0, 2.0, 2.0) == Failure(NonPositiveSpeed)
    ensures Start(Table(), 2, 3, 74, 5, 0.0, 2.0, 2.0) == Failure(OutsideTable)
    ensures Start(New(10, 2, "simple").value, 2, 3, 4, 5, 0.0, 2.0, 2.0) == Failure(OutsideTable)
  {}

  /** A ball touching the left and bottom edges is accepted. */
  lemma TouchingLowerEdgesAccepted()
    ensures Start(Table(), 1, 1, 1, 10, 1.0, 0.0, 1.0).Success?
  {}

  /** A ball touching the right and top edges is accepted. */
  lemma TouchingUpperEdgesAccepted()
    ensures Start(Table(), 9, 9, 1, 10, 1.0, 0.0, 1.0).Success?
  {}
}
