/** The geometry of one bounce in the simple motion model: the time the ball
    needs to reach each wall it is heading for, the choice of the wall it
    reaches first, the move to the contact point and the reflection. */
module Geometry {
  import opened Wrappers
  import opened RealFacts

  /** The four table edges. Top is the edge at `y == height`, bottom at `y == 0`. */
  datatype Edge = Top | Bottom | Left | Right

  /** Ball centre, radius and direction of travel (a unit vector once started). */
  datatype Ball = Ball(x: real, y: real, radius: real, dx: real, dy: real)

  /** The table's lower corner sits at the origin. */
  const XMin: real := 0.0
  const YMin: real := 0.0

  /** The ball's bounding circle lies within the table; touching an edge is allowed. */
  predicate Inside(width: real, height: real, b: Ball) {
    && XMin <= b.x - b.radius && b.x + b.radius <= width
    && YMin <= b.y - b.radius && b.y + b.radius <= height
  }

  /** The direction has length one. */
  predicate Unit(b: Ball) {
    b.dx * b.dx + b.dy * b.dy == 1.0
  }

  /** The ball is moving towards edge `e`. */
  predicate Heads(e: Edge, b: Ball) {
    match e
    case Top => b.dy > 0.0
    case Bottom => b.dy < 0.0
    case Left => b.dx < 0.0
    case Right => b.dx > 0.0
  }

  function Abs(a: real): real {
    if a < 0.0 then -a else a
  }

  /** Distance from the centre to the contact coordinate of `e`, along `e`'s axis. */
  function Gap(e: Edge, width: real, height: real, b: Ball): real {
    match e
    case Right => width - b.radius - b.x
    case Left => b.x - XMin - b.radius
    case Bottom => b.y - YMin - b.radius
    case Top => height - b.y - b.radius
  }

  /** The rate at which the ball closes on edge `e`. */
  function Rate(e: Edge, b: Ball, speed: real): real {
    match e
    case Right => speed * Abs(b.dx)
    case Left => speed * Abs(b.dx)
    case Bottom => speed * Abs(b.dy)
    case Top => speed * Abs(b.dy)
  }

  /** Time to reach edge `e`: distance over rate. Only edges the ball heads
      for are asked about, so the rate is never zero. */
  function TimeToHit(e: Edge, width: real, height: real, b: Ball, speed: real): (t: real)
    requires speed > 0.0 && Heads(e, b)
    ensures Rate(e, b, speed) > 0.0 && Rate(e, b, speed) * t == Gap(e, width, height, b)
    ensures Inside(width, height, b) ==> t >= 0.0
  {
    var rate := Rate(e, b, speed);
    assert rate > 0.0;
    Gap(e, width, height, b) / rate
  }

  /** Fixed tie-break between two edges reached at the same time: left over
      top and bottom, top over right, right over bottom. */
  function Rank(e: Edge): nat {
    match e
    case Left => 0
    case Top => 1
    case Right => 2
    case Bottom => 3
  }

  /** `e` is an edge the ball heads for, and no other such edge is reached
      sooner, or as soon with a better rank. */
  predicate Earliest(e: Edge, width: real, height: real, b: Ball, speed: real)
    requires speed > 0.0
  {
    && Heads(e, b)
    && forall o: Edge :: Heads(o, b) ==>
         || TimeToHit(e, width, height, b, speed) < TimeToHit(o, width, height, b, speed)
         || (TimeToHit(e, width, height, b, speed) == TimeToHit(o, width, height, b, speed) && Rank(e) <= Rank(o))
  }

  /** At most one edge is the earliest. */
  lemma EarliestUnique(e1: Edge, e2: Edge, width: real, height: real, b: Ball, speed: real)
    requires speed > 0.0
    requires Earliest(e1, width, height, b, speed) && Earliest(e2, width, height, b, speed)
    ensures e1 == e2
  {
    assert Rank(e1) <= Rank(e2) && Rank(e2) <= Rank(e1);
  }

  /** The edge the ball strikes next, by the case analysis over direction
      signs: with both components non-zero the nearer of the two candidate
      edges, ties settled per quadrant; with one component zero the single
      edge on the other axis; with both zero, none. The result is the
      earliest edge, and there is one exactly when the ball is moving. */
  function ChooseEdge(width: real, height: real, b: Ball, speed: real): (r: Option<Edge>)
    requires speed > 0.0
    ensures r.Some? <==> b.dx != 0.0 || b.dy != 0.0
    ensures r.Some? ==> Earliest(r.value, width, height, b, speed)
  {
    if b.dx > 0.0 && b.dy > 0.0 then
      Some(if TimeToHit(Top, width, height, b, speed) <= TimeToHit(Right, width, height, b, speed) then Top else Right)
    else if b.dx > 0.0 && b.dy < 0.0 then
      Some(if TimeToHit(Right, width, height, b, speed) <= TimeToHit(Bottom, width, height, b, speed) then Right else Bottom)
    else if b.dx < 0.0 && b.dy < 0.0 then
      Some(if TimeToHit(Left, width, height, b, speed) <= TimeToHit(Bottom, width, height, b, speed) then Left else Bottom)
    else if b.dx < 0.0 && b.dy > 0.0 then
      Some(if TimeToHit(Left, width, height, b, speed) <= TimeToHit(Top, width, height, b, speed) then Left else Top)
    else if b.dx == 0.0 && b.dy > 0.0 then Some(Top)
    else if b.dx == 0.0 && b.dy < 0.0 then Some(Bottom)
    else if b.dx > 0.0 && b.dy == 0.0 then Some(Right)
    else if b.dx < 0.0 && b.dy == 0.0 then Some(Left)
    else None
  }

  /** `after` is `before` having struck `e`: the centre has moved along the
      line of travel onto the contact coordinate of `e`, the direction
      component perpendicular to `e` is negated and the other is unchanged. */
  predicate Bounced(e: Edge, width: real, height: real, before: Ball, after: Ball) {
    && after.radius == before.radius
    && (after.x - before.x) * before.dy == (after.y - before.y) * before.dx
    && match e
       case Top => after.y == height - before.radius && after.dy == -before.dy && after.dx == before.dx
       case Bottom => after.y == YMin + before.radius && after.dy == -before.dy && after.dx == before.dx
       case Left => after.x == XMin + before.radius && after.dx == -before.dx && after.dy == before.dy
       case Right => after.x == width - before.radius && after.dx == -before.dx && after.dy == before.dy
  }

  /** The fixed tie-breaks per quadrant, and the single candidate of
      axis-aligned motion. */
  lemma ChooseEdgeTies(width: real, height: real, b: Ball, speed: real)
    requires speed > 0.0
    ensures b.dx > 0.0 && b.dy > 0.0 && TimeToHit(Top, width, height, b, speed) == TimeToHit(Right, width, height, b, speed)
      ==> ChooseEdge(width, height, b, speed) == Some(Top)
    ensures b.dx > 0.0 && b.dy < 0.0 && TimeToHit(Right, width, height, b, speed) == TimeToHit(Bottom, width, height, b, speed)
      ==> ChooseEdge(width, height, b, speed) == Some(Right)
    ensures b.dx < 0.0 && b.dy < 0.0 && TimeToHit(Left, width, height, b, speed) == TimeToHit(Bottom, width, height, b, speed)
      ==> ChooseEdge(width, height, b, speed) == Some(Left)
    ensures b.dx < 0.0 && b.dy > 0.0 && TimeToHit(Left, width, height, b, speed) == TimeToHit(Top, width, height, b, speed)
      ==> ChooseEdge(width, height, b, speed) == Some(Left)
    ensures b.dx == 0.0 && b.dy != 0.0 ==> ChooseEdge(width, height, b, speed) == Some(if b.dy > 0.0 then Top else Bottom)
    ensures b.dy == 0.0 && b.dx != 0.0 ==> ChooseEdge(width, height, b, speed) == Some(if b.dx > 0.0 then Right else Left)
  {}

  /** Moves the ball for the time it needs to reach `e` and reflects it off `e`.
      The move is forwards along the direction of travel when the ball starts
      on the table. */
  function Bounce(e: Edge, width: real, height: real, b: Ball, speed: real): (r: Ball)
    requires speed > 0.0 && Heads(e, b)
    ensures Bounced(e, width, height, b, r)
    ensures Inside(width, height, b) ==> (r.x - b.x) * b.dx + (r.y - b.y) * b.dy >= 0.0
  {
    BounceGeometry(e, width, height, b, speed);
    BounceForwards(e, width, height, b, speed);
    Reflect(e, Travel(b, speed, TimeToHit(e, width, height, b, speed)))
  }

  /** The ball after travelling for time `t` at `speed` along its direction. */
  function Travel(b: Ball, speed: real, t: real): Ball {
    b.(x := b.x + speed * b.dx * t, y := b.y + speed * b.dy * t)
  }

  /** The move and reflection `Bounce` performs satisfy `Bounced`. */
  lemma BounceGeometry(e: Edge, width: real, height: real, b: Ball, speed: real)
    requires speed > 0.0 && Heads(e, b)
    ensures Bounced(e, width, height, b, Reflect(e, Travel(b, speed, TimeToHit(e, width, height, b, speed))))
  {
    var t := TimeToHit(e, width, height, b, speed);
    var r := Reflect(e, Travel(b, speed, t));
    assert r.x - b.x == speed * b.dx * t && r.y - b.y == speed * b.dy * t;
    AlongLine(speed, t, b.dx, b.dy);
    ContactPoint(e, width, height, b, speed);
  }

  /** From a position on the table, the move `Bounce` performs goes forwards. */
  lemma BounceForwards(e: Edge, width: real, height: real, b: Ball, speed: real)
    requires speed > 0.0 && Heads(e, b)
    ensures var r := Reflect(e, Travel(b, speed, TimeToHit(e, width, height, b, speed)));
      Inside(width, height, b) ==> (r.x - b.x) * b.dx + (r.y - b.y) * b.dy >= 0.0
  {
    var t := TimeToHit(e, width, height, b, speed);
    var r := Reflect(e, Travel(b, speed, t));
    assert r.x - b.x == speed * b.dx * t && r.y - b.y == speed * b.dy * t;
    if Inside(width, height, b) {
      Forwards(speed, t, b.dx, b.dy);
    }
  }

  /** A displacement along the direction is parallel to the direction. */
  lemma AlongLine(speed: real, t: real, dx: real, dy: real)
    ensures (speed * dx * t) * dy == (speed * dy * t) * dx
  {}

  /** A displacement for a non-negative time at non-negative speed points forwards. */
  lemma Forwards(speed: real, t: real, dx: real, dy: real)
    requires speed >= 0.0 && t >= 0.0
    ensures (speed * dx * t) * dx + (speed * dy * t) * dy >= 0.0
  {
    assert (speed * dx * t) * dx + (speed * dy * t) * dy == (speed * t) * (dx * dx + dy * dy);
    NonNegativeProduct(speed * t, dx * dx + dy * dy);
  }

  /** Negates the direction component perpendicular to `e`. */
  function Reflect(e: Edge, b: Ball): Ball {
    match e
    case Top => b.(dy := -1.0 * b.dy)
    case Bottom => b.(dy := -1.0 * b.dy)
    case Left => b.(dx := -1.0 * b.dx)
    case Right => b.(dx := -1.0 * b.dx)
  }

  /** Travelling for the time to reach `e` lands the centre on `e`'s contact coordinate. */
  lemma ContactPoint(e: Edge, width: real, height: real, b: Ball, speed: real)
    requires speed > 0.0 && Heads(e, b)
    ensures var t := TimeToHit(e, width, height, b, speed);
      match e
      case Top => b.y + speed * b.dy * t == height - b.radius
      case Bottom => b.y + speed * b.dy * t == YMin + b.radius
      case Left => b.x + speed * b.dx * t == XMin + b.radius
      case Right => b.x + speed * b.dx * t == width - b.radius
  {
    var t := TimeToHit(e, width, height, b, speed);
    match e
    case Top => assert speed * b.dy * t == Rate(e, b, speed) * t;
    case Bottom => assert speed * b.dy * t == -(Rate(e, b, speed) * t);
    case Left => assert speed * b.dx * t == -(Rate(e, b, speed) * t);
    case Right => assert speed * b.dx * t == Rate(e, b, speed) * t;
  }

  /** Covering the distance to `e` for no longer than it takes to reach `e`
      moves the ball no further than `e`'s gap. */
  lemma NoFurtherThan(e: Edge, width: real, height: real, b: Ball, speed: real, t: real)
    requires speed > 0.0 && Heads(e, b)
    requires 0.0 <= t <= TimeToHit(e, width, height, b, speed)
    ensures 0.0 <= Rate(e, b, speed) * t <= Gap(e, width, height, b)
  {
    var rate := Rate(e, b, speed);
    var big := TimeToHit(e, width, height, b, speed);
    assert rate * big - rate * t == rate * (big - t);
    NonNegativeProduct(rate, big - t);
    NonNegativeProduct(rate, t);
  }

  /** Striking a left or right edge keeps the ball between top and bottom:
      the edge struck is reached no later than either of them. */
  lemma VerticalStrikeKeepsHeight(e: Edge, width: real, height: real, b: Ball, speed: real)
    requires speed > 0.0 && Inside(width, height, b)
    requires e == Left || e == Right
    requires Earliest(e, width, height, b, speed)
    ensures var t := TimeToHit(e, width, height, b, speed);
      YMin <= b.y + speed * b.dy * t - b.radius && b.y + speed * b.dy * t + b.radius <= height
  {
    var t := TimeToHit(e, width, height, b, speed);
    if b.dy > 0.0 {
      assert Heads(Top, b);
      NoFurtherThan(Top, width, height, b, speed, t);
      NonNegativeProduct(speed * b.dy, t);
    } else if b.dy < 0.0 {
      assert Heads(Bottom, b);
      NoFurtherThan(Bottom, width, height, b, speed, t);
      assert speed * b.dy * t == -(Rate(Bottom, b, speed) * t);
    }
  }

  /** Striking the top or bottom edge keeps the ball between left and right. */
  lemma HorizontalStrikeKeepsWidth(e: Edge, width: real, height: real, b: Ball, speed: real)
    requires speed > 0.0 && Inside(width, height, b)
    requires e == Top || e == Bottom
    requires Earliest(e, width, height, b, speed)
    ensures var t := TimeToHit(e, width, height, b, speed);
      XMin <= b.x + speed * b.dx * t - b.radius && b.x + speed * b.dx * t + b.radius <= width
  {
    var t := TimeToHit(e, width, height, b, speed);
    if b.dx > 0.0 {
      assert Heads(Right, b);
      NoFurtherThan(Right, width, height, b, speed, t);
      NonNegativeProduct(speed * b.dx, t);
    } else if b.dx < 0.0 {
      assert Heads(Left, b);
      NoFurtherThan(Left, width, height, b, speed, t);
      assert speed * b.dx * t == -(Rate(Left, b, speed) * t);
    }
  }

  /** A ball on the table that strikes the earliest edge is still on the table
      afterwards: on the struck axis it touches the edge, on the other it has
      not yet reached either edge. */
  lemma BounceStaysInside(e: Edge, width: real, height: real, b: Ball, speed: real)
    requires speed > 0.0 && Inside(width, height, b)
    requires Earliest(e, width, height, b, speed)
    ensures Inside(width, height, Bounce(e, width, height, b, speed))
  {
    if e == Left || e == Right {
      VerticalStrikeKeepsHeight(e, width, height, b, speed);
    } else {
      HorizontalStrikeKeepsWidth(e, width, height, b, speed);
    }
  }

  /** Reflection keeps a unit direction a unit direction. */
  lemma BounceKeepsUnit(e: Edge, width: real, height: real, b: Ball, speed: real)
    requires speed > 0.0 && Heads(e, b) && Unit(b)
    ensures Unit(Bounce(e, width, height, b, speed))
  {
    var r := Bounce(e, width, height, b, speed);
    NegatedSquare(b.dx);
    NegatedSquare(b.dy);
  }
}
