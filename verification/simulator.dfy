/** The simulator's state machine: construction, `start`, `advance` for the
    simple motion model, and the getters. The state is an immutable value;
    each operation returns the next state. */
module Simulator {
  import opened Wrappers
  import opened SimStatus
  import opened Geometry
  import opened RealFacts

  /** The motion model chosen at construction. */
  datatype MotionModel = Simple | Friction

  /** Construction failures: a negative width or height, or an unknown type tag. */
  datatype ConfigError = InvalidDimensions | InvalidType

  /** `start` failures, checked in this order. */
  datatype StartError = NegativeRadius | NonPositiveSpeed | OutsideTable

  /** The whole simulator. `ball` is `None` until a `start` succeeds; the
      Java class keeps minus infinity in the position and radius fields then. */
  datatype Sim = Sim(
    width: int,
    height: int,
    model: MotionModel,
    ball: Option<Ball>,
    speed: real,
    status: Status)

  /** Speed lost at each bounce in the simple model. */
  const Decrement: real := 5.0

  /** A value a position or radius getter can report. */
  datatype Reading = NegativeInfinity | Finite(value: real)

  /** What holds of every state the operations produce: non-negative table
      and speed, the ball on the table with a unit direction, and a zero speed
      exactly when the ball is not set up or has come to rest. */
  predicate Valid(s: Sim) {
    && s.width >= 0 && s.height >= 0
    && s.speed >= 0.0
    && (s.speed == 0.0 <==> s.status == NotSetUp || s.status == Stationary)
    && (s.ball.None? ==> s.speed == 0.0)
    && (s.ball.Some? ==> s.ball.value.radius >= 0.0 && Inside(s.width as real, s.height as real, s.ball.value) && Unit(s.ball.value))
  }

  /** What `advance` needs: a moving ball has been placed, and is under the
      simple model (the friction branch is not part of this model). */
  predicate Ready(s: Sim) {
    s.speed > 0.0 ==> s.model == Simple && s.ball.Some?
  }

  /** Builds a simulator for a `width` by `height` table. Fails exactly when a
      dimension is negative (checked first) or the tag names neither model. */
  function New(width: int, height: int, kind: string): (r: Result<Sim, ConfigError>)
    ensures r.Success? <==> width >= 0 && height >= 0 && (kind == "simple" || kind == "friction")
    ensures r == Failure(InvalidDimensions) <==> width < 0 || height < 0
    ensures r.Success? ==>
      && r.value.width == width && r.value.height == height
      && (r.value.model == Simple <==> kind == "simple")
      && r.value.ball.None? && r.value.speed == 0.0 && r.value.status == NotSetUp
      && Valid(r.value) && Ready(r.value)
  {
    if width < 0 || height < 0 then Failure(InvalidDimensions)
    else if kind != "simple" && kind != "friction" then Failure(InvalidType)
    else Success(Sim(width, height, if kind == "simple" then Simple else Friction, None, 0.0, NotSetUp))
  }

  /** The containment test of `start` over mathematical integers: the ball's
      bounding box lies within the table. */
  predicate FitsOnTable(width: int, height: int, x: int, y: int, radius: int) {
    !(x - radius < 0 || x + radius > width || y - radius < 0 || y + radius > height)
  }

  /** `a` and `b` are both positive, both negative or both zero. */
  predicate SameSign(a: real, b: real) {
    (a > 0.0 <==> b > 0.0) && (a < 0.0 <==> b < 0.0)
  }

  /** Places the ball and sets it moving. `mag` is the Euclidean length of
      `(dx, dy)`, the value `SimplePoolSimulator` obtains from a square root. The three
      checks are made in order (radius, then speed, then containment) and the
      first that fails names the error; on success the ball is stored as given
      with direction `(dx, dy)` scaled to unit length, keeping the sign of each
      component and its line of travel. */
  function Start(s: Sim, x: int, y: int, radius: int, speed: int, dx: real, dy: real, mag: real): (r: Result<Sim, StartError>)
    requires mag >= 0.0 && mag * mag == dx * dx + dy * dy
    requires radius >= 0 && speed > 0 && FitsOnTable(s.width, s.height, x, y, radius) ==> dx != 0.0 || dy != 0.0
    ensures r == Failure(NegativeRadius) <==> radius < 0
    ensures r == Failure(NonPositiveSpeed) <==> radius >= 0 && speed <= 0
    ensures r == Failure(OutsideTable) <==> radius >= 0 && speed > 0 && !FitsOnTable(s.width, s.height, x, y, radius)
    ensures r.Success? ==>
      && r.value.width == s.width && r.value.height == s.height && r.value.model == s.model
      && r.value.speed == speed as real && r.value.status == Started
      && r.value.ball.Some?
      && var b := r.value.ball.value;
         && b.x == x as real && b.y == y as real && b.radius == radius as real
         && Unit(b) && SameSign(b.dx, dx) && SameSign(b.dy, dy) && b.dx * dy == b.dy * dx
    ensures r.Success? ==> Valid(r.value) && (s.model == Simple ==> Ready(r.value))
  {
    if radius < 0 then Failure(NegativeRadius)
    else if speed <= 0 then Failure(NonPositiveSpeed)
    else if !FitsOnTable(s.width, s.height, x, y, radius) then Failure(OutsideTable)
    else
      PositiveLength(dx, dy, mag);
      Normalised(dx, dy, mag);
      Success(s.(
        ball := Some(Ball(x as real, y as real, radius as real, dx / mag, dy / mag)),
        speed := speed as real,
        status := Started))
  }

  /** The status reported after striking `e`. */
  function HitStatus(e: Edge): Status {
    match e
    case Top => HitTop
    case Bottom => HitBottom
    case Left => HitLeft
    case Right => HitRight
  }

  /** One bounce of the simple model, before the final clamp: the ball
      strikes the earliest edge it heads for, the status names that edge, and
      the speed drops by exactly the decrement. A ball with no direction (which
      `start` never produces) stays where it is and keeps its status. */
  function SimpleStep(s: Sim): (r: Sim)
    requires s.speed > 0.0 && s.ball.Some?
    ensures r.width == s.width && r.height == s.height && r.model == s.model
    ensures r.speed == s.speed - Decrement
    ensures r.ball.Some?
    ensures var b := s.ball.value;
      forall e: Edge :: Earliest(e, s.width as real, s.height as real, b, s.speed) ==>
        r.status == HitStatus(e) && Bounced(e, s.width as real, s.height as real, b, r.ball.value)
    ensures s.ball.value.dx == 0.0 && s.ball.value.dy == 0.0 ==> r.ball == s.ball && r.status == s.status
  {
    var w, h, b := s.width as real, s.height as real, s.ball.value;
    match ChooseEdge(w, h, b, s.speed)
    case None => s.(speed := s.speed - Decrement)
    case Some(e) =>
      assert forall o: Edge :: Earliest(o, w, h, b, s.speed) ==> o == e by {
        forall o: Edge | Earliest(o, w, h, b, s.speed) {
          EarliestUnique(o, e, w, h, b, s.speed);
        }
      }
      s.(ball := Some(Bounce(e, w, h, b, s.speed)), speed := s.speed - Decrement, status := HitStatus(e))
  }

  /** `advance`: a simple-model bounce while the ball moves, then the clamp: a
      speed at or below zero becomes exactly zero with status stationary. A
      ball already at rest (or never started) keeps its position and direction. */
  function Advance(s: Sim): (r: Sim)
    requires Ready(s)
    ensures r.width == s.width && r.height == s.height && r.model == s.model
    ensures r.speed >= 0.0 && Ready(r)
    ensures s.speed > 0.0 ==> r.speed == (if s.speed > Decrement then s.speed - Decrement else 0.0)
    ensures s.speed > 0.0 && r.speed > 0.0 ==> r == SimpleStep(s)
    ensures s.speed > 0.0 ==> r.ball == SimpleStep(s).ball
    ensures s.speed <= Decrement ==> r.status == Stationary
    ensures s.speed <= 0.0 ==> r == s.(speed := 0.0, status := Stationary)
  {
    var moved := if s.model == Simple && s.speed > 0.0 then SimpleStep(s) else s;
    if moved.speed <= 0.0 then moved.(speed := 0.0, status := Stationary) else moved
  }

  /** Every transition keeps the state valid. */
  lemma AdvanceKeepsValid(s: Sim)
    requires Valid(s) && Ready(s)
    ensures Valid(Advance(s))
  {
    if s.speed > 0.0 {
      var w, h, b := s.width as real, s.height as real, s.ball.value;
      var e := ChooseEdge(w, h, b, s.speed).value;
      BounceStaysInside(e, w, h, b, s.speed);
      BounceKeepsUnit(e, w, h, b, s.speed);
      assert SimpleStep(s).ball.value == Bounce(e, w, h, b, s.speed);
    }
  }

  /** The x coordinate of the ball's centre; minus infinity before `start`. */
  function PositionX(s: Sim): (r: Reading)
    ensures r.NegativeInfinity? <==> s.ball.None?
    ensures Valid(s) && r.Finite? ==> r.value - s.ball.value.radius >= XMin && r.value + s.ball.value.radius <= s.width as real
  {
    if s.ball.None? then NegativeInfinity else Finite(s.ball.value.x)
  }

  /** The y coordinate of the ball's centre; minus infinity before `start`. */
  function PositionY(s: Sim): (r: Reading)
    ensures r.NegativeInfinity? <==> s.ball.None?
    ensures Valid(s) && r.Finite? ==> r.value - s.ball.value.radius >= YMin && r.value + s.ball.value.radius <= s.height as real
  {
    if s.ball.None? then NegativeInfinity else Finite(s.ball.value.y)
  }

  /** The ball's radius; minus infinity before `start`. */
  function Radius(s: Sim): (r: Reading)
    ensures r.NegativeInfinity? <==> s.ball.None?
    ensures Valid(s) && r.Finite? ==> 0.0 <= 2.0 * r.value <= s.width as real
  {
    if s.ball.None? then NegativeInfinity else Finite(s.ball.value.radius)
  }

  /** Velocity components: speed times direction. Before `start` the
      direction fields hold zero, and so does the velocity. */
  function VelocityX(s: Sim): real {
    if s.ball.None? then 0.0 else s.speed * s.ball.value.dx
  }

  function VelocityY(s: Sim): real {
    if s.ball.None? then 0.0 else s.speed * s.ball.value.dy
  }

  /** In a valid state the velocity's length is the speed. */
  lemma VelocityMagnitude(s: Sim)
    requires Valid(s)
    ensures VelocityX(s) * VelocityX(s) + VelocityY(s) * VelocityY(s) == s.speed * s.speed
  {
    if s.ball.Some? {
      var b := s.ball.value;
      assert VelocityX(s) * VelocityX(s) + VelocityY(s) * VelocityY(s) == (s.speed * s.speed) * (b.dx * b.dx + b.dy * b.dy);
    }
  }

  /** The string `getStatus` reports; it reads back as the current status. */
  function StatusText(s: Sim): (r: string)
    ensures Parse(r) == Some(s.status)
  {
    Display(s.status)
  }
}
