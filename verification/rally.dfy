/** Repeated `advance`: the speed lost per bounce as a termination measure,
    the exact number of bounces before the ball rests, and rest as a fixed point. */
module Rally {
  import opened SimStatus
  import opened Simulator

  /** The state after `n` calls of `advance`. */
  function Run(s: Sim, n: nat): (r: Sim)
    requires Ready(s)
    ensures Ready(r) && r.model == s.model && r.width == s.width && r.height == s.height
    ensures s.speed >= 0.0 ==> r.speed >= 0.0
    decreases n
  {
    if n == 0 then s else Advance(Run(s, n - 1))
  }

  /** One more advance extends the run by one step. */
  lemma RunUnfolds(s: Sim, n: nat)
    requires Ready(s) && n > 0
    ensures Run(s, n) == Advance(Run(s, n - 1))
  {}

  /** Number of bounces a ball starting at integer speed `k > 0` makes before
      resting: the ceiling of `k / 5`. */
  function BouncesToRest(k: int): (n: nat)
    requires k > 0
    ensures n >= 1 && 5 * (n - 1) < k <= 5 * n
  {
    (k + 4) / 5
  }

  /** Each call of `advance` lowers a positive speed by exactly five, until it
      is clamped to zero. */
  lemma {:induction false} RunSpeed(s: Sim, n: nat)
    requires Ready(s) && s.speed >= 0.0
    ensures Run(s, n).speed == (if s.speed > 5.0 * n as real then s.speed - 5.0 * n as real else 0.0)
  {
    if n > 0 {
      RunSpeed(s, n - 1);
    }
  }

  /** From integer speed `k > 0` the ball is still moving after fewer than
      `ceil(k / 5)` advances and is stationary, at speed zero, after exactly
      that many. */
  lemma {:induction false} RestsAfterCeiling(s: Sim, k: int)
    requires Ready(s) && k > 0 && s.speed == k as real
    ensures var n := BouncesToRest(k);
      Run(s, n).speed == 0.0 && Run(s, n).status == Stationary
    ensures forall i: nat :: i < BouncesToRest(k) ==> Run(s, i).speed > 0.0
  {
    var n := BouncesToRest(k);
    RunSpeed(s, n - 1);
    assert Run(s, n - 1).speed == s.speed - 5.0 * (n - 1) as real;
    RunUnfolds(s, n);
    forall i: nat | i < n
      ensures Run(s, i).speed > 0.0
    {
      RunSpeed(s, i);
    }
  }

  /** A ball at rest, or never started, stays where it is: `advance` only
      sets the status to stationary, and a second call changes nothing. */
  lemma AtRestIsFixedPoint(s: Sim)
    requires Ready(s) && s.speed == 0.0
    ensures Advance(s).ball == s.ball && Advance(s).speed == 0.0 && Advance(s).status == Stationary
    ensures Advance(Advance(s)) == Advance(s)
  {}

  /** Calling `advance` on a freshly built simulator, before `start`, leaves
      the ball unplaced and reports it stationary. */
  lemma AdvanceBeforeStart(width: int, height: int, kind: string)
    requires New(width, height, kind).Success?
    ensures var s := New(width, height, kind).value;
      Advance(s).ball.None? && Advance(s).speed == 0.0 && Advance(s).status == Stationary
  {}

  /** Valid states stay valid over any number of advances. */
  lemma {:induction false} RunKeepsValid(s: Sim, n: nat)
    requires Valid(s) && Ready(s)
    ensures Valid(Run(s, n))
  {
    if n > 0 {
      RunKeepsValid(s, n - 1);
      AdvanceKeepsValid(Run(s, n - 1));
    }
  }

  /** A caller's polling loop: advance until the status reports the ball
      stationary. It stops, at speed zero, after the first advance that
      reports rest. */
  method RunToRest(s: Sim) returns (r: Sim, steps: nat)
    requires Valid(s) && Ready(s)
    ensures r == Run(s, steps) && Valid(r)
    ensures r.status == Stationary && r.speed == 0.0
    ensures forall i: nat :: i < steps ==> Run(s, i).status != Stationary
    ensures s.speed > 0.0 && s.speed == s.speed.Floor as real ==> steps == BouncesToRest(s.speed.Floor)
  {
    r, steps := s, 0;
    while r.status != Stationary
      invariant r == Run(s, steps)
      invariant forall i: nat :: i < steps ==> Run(s, i).status != Stationary
      decreases if r.status == Stationary then 0 else r.speed.Floor + 10
    {
      MovingAdvanceLowersFloor(r);
      RunUnfolds(s, steps + 1);
      r, steps := Advance(r), steps + 1;
    }
    RunKeepsValid(s, steps);
    if s.speed > 0.0 && s.speed == s.speed.Floor as real {
      FirstRestIsCeiling(s, s.speed.Floor, steps);
    }
  }

  /** An advance that leaves the ball moving lowers the integer part of the
      speed by exactly five. */
  lemma MovingAdvanceLowersFloor(s: Sim)
    requires Ready(s)
    ensures Advance(s).status != Stationary ==> Advance(s).speed.Floor == s.speed.Floor - 5
  {
    if Advance(s).status != Stationary {
      assert s.speed > 5.0 && Advance(s).speed == s.speed - 5.0;
    }
  }

  /** The first advance that reports rest, from integer speed `k > 0`, is
      the `ceil(k / 5)`-th. */
  lemma FirstRestIsCeiling(s: Sim, k: int, steps: nat)
    requires Valid(s) && Ready(s) && k > 0 && s.speed == k as real
    requires Run(s, steps).status == Stationary
    requires forall i: nat :: i < steps ==> Run(s, i).status != Stationary
    ensures steps == BouncesToRest(k)
  {
    var n := BouncesToRest(k);
    RestsAfterCeiling(s, k);
    RunKeepsValid(s, steps);
  }

  /** The stop string the replay viewer waits for lacks the space after the
      colon, so no status the simulator can report ever equals it. */
  const ViewerStopText: string := "Status:Ball is stationary"

  lemma ViewerStopTextNeverReported(st: Status)
    ensures Display(st) != ViewerStopText
  {
    assert Display(st)[7] == ' ';
    assert ViewerStopText[7] == 'B';
  }
}
