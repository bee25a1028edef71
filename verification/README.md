# Pool simulator: the ball state machine, simple motion model

A Dafny model of `SimplePoolSimulator`, the engine of a one-ball pool table
simulation. A simulator is built for a `width` by `height` table and a motion
model (`"simple"` or `"friction"`); `start` places the ball and sets it moving;
each `advance` carries the ball to the next table edge it strikes, reflects it
off that edge and slows it down, until it comes to rest. This model covers the
`"simple"` motion model, in which every bounce costs exactly 5 units of speed.

The Java object with mutable fields becomes an immutable value `Sim`
(`Simulator` module), and `start` and `advance` become pure functions returning
the next state. Java exceptions become a `Result` with one error per check.
Doubles become exact `real`s.

Modules:

- `Wrappers`: `Option` and `Result`.
- `SimStatus`: the status vocabulary as an enumeration, the `"Status: "`
  strings `getStatus` reports, and a parser that reads them back.
- `RealFacts`: small facts about products and quotients of reals.
- `Geometry`: time to reach each edge, the choice of edge, the move to the
  contact point and the reflection.
- `Simulator`: construction, `start`, `advance` and the getters.
- `Rally`: repeated `advance`, speed as a termination measure, and a
  caller's polling loop.
- `Scenarios`: the scenarios of the unit tests on a 10 by 10 table.
- `Int32Fit`: the `start` containment test as Java evaluates it on 32-bit
  `int`s.

The square root in `start` cannot be computed over reals. The caller passes
the magnitude `mag` with `mag >= 0` and `mag * mag == dx * dx + dy * dy`. The
Java code does not reject a zero direction; it would divide by zero and store
NaN. So a zero direction is a precondition of a `start` that passes all three
checks.

Three behaviours of the Java code that the model reproduces:

- Direction (2, 1) from (2, 2) on a 10 by 10 table strikes the right edge.
  The time to the right edge is half the time to the top, and the unit test's
  expected x velocity of about -4.472 agrees.
- When two edges are reached at the same time, each sign quadrant has a fixed
  winner: top over right, right over bottom, left over bottom, left over top.
  One ranking, left < top < right < bottom, agrees with all four rules.
- `advance` before `start` sets the status to "Ball is stationary". Speed is 0
  from construction, so the final clamp fires.

## Model

| member | source | states |
|---|---|---|
| Simulator.New | ass2/src/sim/SimplePoolSimulator.java:33-49 | Construction fails exactly when width < 0, height < 0, or the tag is neither "simple" nor "friction". The dimension check comes first. On success the table is stored, the ball is unplaced, speed is 0 and the status is "not set up". |
| Simulator.Start | ass2/src/sim/SimplePoolSimulator.java:64-83 | Fails with NegativeRadius iff radius < 0. Fails with NonPositiveSpeed iff radius >= 0 and speed <= 0. Fails with OutsideTable iff both earlier checks pass and the bounding box leaves the table. Touching an edge is allowed. On success x, y, radius and speed are stored and the status is Started. The stored direction has unit length, each component keeps its sign (zero stays zero), and it lies on the caller's line of travel. |
| Geometry.TimeToHit | ass2/src/sim/SimplePoolSimulator.java:100-103 | The time to an edge the ball heads for is distance over a positive closing rate. It is non-negative while the ball is on the table. |
| Geometry.ChooseEdge | ass2/src/sim/SimplePoolSimulator.java:104-168 | An edge is chosen iff the direction is non-zero. The chosen edge is one the direction points at, and it is reached no later than any other such edge. Equal times are settled by the fixed tie-break. |
| Geometry.EarliestUnique | ass2/src/sim/SimplePoolSimulator.java:107-168 | The reference definition of "earliest edge" picks at most one edge, so the choice is deterministic. |
| Geometry.ChooseEdgeTies | ass2/src/sim/SimplePoolSimulator.java:107-168 | Equal times give top over right, right over bottom, left over bottom and left over top. Axis-aligned motion always strikes the single edge on its axis. |
| Geometry.Bounce | ass2/src/sim/SimplePoolSimulator.java:170-179 | After the move the centre sits on the contact coordinate of the struck edge, on the original line of travel. The perpendicular direction component is negated and the other is unchanged. From a position on the table the move goes forwards. |
| Geometry.BounceGeometry | ass2/src/sim/SimplePoolSimulator.java:170-179 | Travelling for the chosen time and then reflecting satisfies the contact-and-reflection relation. |
| Geometry.ContactPoint | ass2/src/sim/SimplePoolSimulator.java:170-173 | Travelling for the time to edge e lands the centre exactly on e's contact coordinate: height - radius for top, radius for bottom and left, width - radius for right. |
| Geometry.BounceForwards | ass2/src/sim/SimplePoolSimulator.java:170-173 | From a position on the table the displacement has a non-negative component along the direction of travel. |
| Geometry.NoFurtherThan | ass2/src/sim/SimplePoolSimulator.java:100-103 | Moving for no longer than the time to an edge covers no more than the gap to that edge. |
| Geometry.VerticalStrikeKeepsHeight | ass2/src/sim/SimplePoolSimulator.java:100-173 | When the ball strikes left or right, the chosen time is the minimum, so the ball stays between the bottom and top edges. |
| Geometry.HorizontalStrikeKeepsWidth | ass2/src/sim/SimplePoolSimulator.java:100-173 | When the ball strikes top or bottom, it stays between the left and right edges. |
| Geometry.BounceStaysInside | ass2/src/sim/SimplePoolSimulator.java:100-179 | A ball on the table that strikes the earliest edge is still on the table afterwards. |
| Geometry.BounceKeepsUnit | ass2/src/sim/SimplePoolSimulator.java:174-179 | Reflection keeps a unit direction a unit direction. |
| Simulator.SimpleStep | ass2/src/sim/SimplePoolSimulator.java:98-180 | A simple bounce keeps the table and model and lowers speed by exactly 5. The status names the earliest edge, and the ball has struck that edge. A zero direction leaves ball and status alone. |
| Simulator.Advance | ass2/src/sim/SimplePoolSimulator.java:92-265 | Speed after a call is never negative. A positive speed drops by 5, or to exactly 0 with status "stationary" when it would reach 0 or less. At speed 0 the call only sets the status to "stationary". |
| Simulator.AdvanceKeepsValid | ass2/src/sim/SimplePoolSimulator.java:98-263 | Advance preserves the state invariant. The invariant is: table and speed non-negative, the ball on the table with a unit direction, and zero speed exactly when the ball is unplaced or at rest. |
| Simulator.PositionX | ass2/src/sim/SimplePoolSimulator.java:309-311 | Reports minus infinity exactly before start. Afterwards, in a valid state, the x coordinate keeps the ball within the table's width. |
| Simulator.PositionY | ass2/src/sim/SimplePoolSimulator.java:319-321 | Reports minus infinity exactly before start. Afterwards the y coordinate keeps the ball within the table's height. |
| Simulator.Radius | ass2/src/sim/SimplePoolSimulator.java:329-331 | Reports minus infinity exactly before start. Afterwards the radius is non-negative and the diameter fits the table's width. |
| Simulator.VelocityMagnitude | ass2/src/sim/SimplePoolSimulator.java:339-351 | The velocity is speed times direction, so its squared length is the squared speed. |
| Simulator.StatusText | ass2/src/sim/SimplePoolSimulator.java:359-361 | The reported string reads back as the current status. |
| SimStatus.Display | ass2/src/sim/SimplePoolSimulator.java:359-361 | Every reported string starts with "Status: " and parses back to the status it came from. |
| SimStatus.ParseOnlyDisplayed | ass2/src/sim/SimplePoolSimulator.java:359-361 | The parser accepts only the strings Display produces. |
| SimStatus.DisplayInjective | ass2/src/sim/SimplePoolSimulator.java:359-361 | No two statuses report the same string. |
| Rally.RunSpeed | ass2/src/sim/SimplePoolSimulator.java:180-263 | After n advances the speed is the start speed minus 5n, or exactly 0 once that would be 0 or less. |
| Rally.BouncesToRest | ass2/src/sim/SimplePoolSimulator.java:180-263 | The bounce count for integer speed k > 0 is the ceiling of k / 5. |
| Rally.RestsAfterCeiling | ass2/src/sim/SimplePoolSimulator.java:180-263 | From integer speed k > 0 the ball still moves after fewer than ceil(k / 5) advances. After exactly that many it is stationary at speed 0. |
| Rally.AtRestIsFixedPoint | ass2/src/sim/SimplePoolSimulator.java:260-263 | At speed 0, advance keeps the ball and speed and sets the status to stationary. A second call changes nothing. |
| Rally.AdvanceBeforeStart | ass2/src/sim/SimplePoolSimulator.java:45-48 | Advance on a freshly built simulator leaves the ball unplaced at speed 0 and reports it stationary. |
| Rally.RunKeepsValid | ass2/src/sim/SimplePoolSimulator.java:92-265 | Any number of advances keeps the state invariant. |
| Rally.MovingAdvanceLowersFloor | ass2/src/sim/SimplePoolSimulator.java:180-180 | An advance that leaves the ball moving lowers the integer part of the speed by exactly 5. |
| Rally.FirstRestIsCeiling | ass2/src/sim/SimplePoolSimulator.java:260-263 | From integer speed k > 0 the first advance that reports rest is the ceil(k / 5)-th. |
| Rally.RunToRest | ass2/src/sim/BallView.java:125-131 | The polling loop stops at status stationary with speed 0. No earlier state in the run was stationary. From integer speed k it stops after ceil(k / 5) advances. |
| Rally.ViewerStopTextNeverReported | ass2/src/sim/BallView.java:125-125 | The viewer's stop string "Status:Ball is stationary" (no space) equals no reported status string. |
| Scenarios.UpwardsHitsTopEdge | ass2/test/sim/SimplePoolSimulatorTest.java:20-28 | Direction (0, 1) from (2, 2): the ball strikes the top edge at y = 9 and its x velocity stays 0. |
| Scenarios.RejectedInputs | ass2/test/sim/SimplePoolSimulatorTest.java:33-114 | Each rejected input of the tests fails with the error the order of the checks gives it: negative width or height, negative radius, speed -95 or 0, and a ball too large for the table. |
| Scenarios.RightwardsHitsRightEdge | ass2/test/sim/SimplePoolSimulatorTest.java:121-129 | Direction (1, 0): the ball strikes the right edge at x = 9 with x velocity -5. |
| Scenarios.UpLeftHitsLeftEdge | ass2/test/sim/SimplePoolSimulatorTest.java:135-143 | Direction (-2, 1): the ball strikes the left edge and its x velocity becomes 10 / sqrt 5, about 4.472. |
| Scenarios.DownRightHitsBottomEdge | ass2/test/sim/SimplePoolSimulatorTest.java:149-157 | Direction (2, -1): the ball strikes the bottom edge and its x velocity stays about 4.472. |
| Scenarios.DownLeftHitsLeftEdge | ass2/test/sim/SimplePoolSimulatorTest.java:162-170 | Direction (-2, -1): the ball strikes the left edge and its x velocity becomes about 4.472. |
| Scenarios.UpRightHitsRightEdge | ass2/test/sim/SimplePoolSimulatorTest.java:175-183 | Direction (2, 1): the ball strikes the right edge and its x velocity becomes -10 / sqrt 5, about -4.472. |
| Scenarios.StartsAlong | ass2/src/sim/SimplePoolSimulator.java:75-82 | An axis-aligned direction of any positive length, along either axis and in either sense, is stored as the unit vector of that axis and sense: (±d, 0) becomes (±1, 0) and (0, ±d) becomes (0, ±1). |
| Scenarios.StartsAt | ass2/src/sim/SimplePoolSimulator.java:75-82 | A direction that already has unit length is stored unchanged. |
| Scenarios.TouchingLowerEdgesAccepted | ass2/src/sim/SimplePoolSimulator.java:72-72 | A ball touching the left and bottom edges passes the containment check. |
| Scenarios.TouchingUpperEdgesAccepted | ass2/src/sim/SimplePoolSimulator.java:72-72 | A ball touching the right and top edges passes the containment check. |
| Int32Fit.AsWrittenAgreesWithoutOverflow | ass2/src/sim/SimplePoolSimulator.java:72-72 | When no sum or difference overflows 32 bits, the containment test as written agrees with the mathematical one. |
| Int32Fit.AsWrittenAdmitsOffTableBall | ass2/src/sim/SimplePoolSimulator.java:72-72 | With 32-bit wrap-around, x = 2147483647 and radius 1 pass the test on a 10 by 10 table, though the ball is off the table. |
| Int32Fit.AcceptedBallIsOnTable | ass2/src/sim/SimplePoolSimulator.java:72-78 | Under the mathematical test, every ball that start accepts has its bounding circle on the table. |

## Left out

- The friction branch of `advance` and the quadratic solver `solve`
  (ass2/src/sim/SimplePoolSimulator.java:182-259, 267-281) are not modelled.
  They need square roots and a floating tolerance, and they turn the `-1`
  "no root" value into a time of 1 through `Math.abs`. With axis-aligned
  motion they leave the time at `Double.MAX_VALUE`. `Advance` therefore
  requires that a moving ball is under the simple model.
- Simulator.Advance: IEEE-754 doubles are modelled as exact reals. Only the
  times for edges the ball heads towards are computed. Java also computes the
  other two times, which divide by zero and give infinities or NaN, but those
  values are never used.
- Simulator.Start: the square root of the direction's squared length is a
  parameter `mag`, not computed. A zero direction, which Java turns into NaN,
  is excluded by a precondition.
- The `xfac` string field is replaced by the `Edge` enumeration, and the
  status text field by the `Status` enumeration. `getStatus` strings are
  produced by `SimStatus.Display`.
- `getTableWidth` and `getTableHeight` are the `width` and `height` fields
  of `Sim`.
- `getBallVelocityX` and `getBallVelocityY` are `Simulator.VelocityX` and
  `Simulator.VelocityY`. Their content is stated by
  `Simulator.VelocityMagnitude` and by the scenarios, not by contracts of
  their own. Before `start` the Java direction fields hold 0, so the velocity
  is 0.
- The swing viewer (ass2/src/sim/BallView.java) is not modelled, apart from
  its polling loop (`Rally.RunToRest`) and its stop string. Drawing, key
  handling and `main` are left out. ass2/src/sim/PoolSimulator.java holds only
  signatures.
- The friction-model unit tests
  (ass2/test/sim/SimplePoolSimulatorTest.java:185-355) are left out with the
  friction branch.

## Findings

| source | as written | input that shows it | evidently intended | confidence | as-written member | corrected member |
|---|---|---|---|---|---|---|
| ass2/src/sim/SimplePoolSimulator.java:72 | `x + radius > width` and the other three tests are evaluated on 32-bit `int`s, which wrap around | `new SimplePoolSimulator(10, 10, "simple").start(2147483647, 5, 1, 10, 1, 0)`: `x + radius` wraps to -2147483648, so the ball is accepted far off the table | reject any ball whose bounding box leaves the table | not executed; follows from Java's `int` overflow rules | Int32Fit.AsWrittenAdmitsOffTableBall | Int32Fit.AcceptedBallIsOnTable |
| ass2/src/sim/BallView.java:125 | the replay loop waits for `"Status:Ball is stationary"` (no space after the colon) | any run: `getStatus` returns `"Status: Ball is stationary"`, so the loop never ends | stop once the simulator reports rest | not executed; follows from the two string literals | Rally.ViewerStopTextNeverReported | Rally.RunToRest |
