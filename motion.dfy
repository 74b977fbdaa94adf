/** The deceleration arithmetic of `finishScroll` and its `step`: constant
    deceleration against the release velocity, trapezoidal integration of the
    displacement, and an axis stops once its velocity would change sign. */
module Motion {

  /** The deceleration magnitude `0.0006` (px/ms^2). */
  const Deceleration: real := 0.0006

  /** The factor applied to an axis's deceleration while it is out of bounds. */
  const OutOfBoundsBrake: real := 5.0

  /** The state of the `step` closure: per-axis speed and acceleration, and the
      clock value of the previous tick. */
  datatype Momentum = Momentum(speedX: real, speedY: real, acceX: real, acceY: real, time: real)

  function Abs(x: real): real { if x < 0.0 then -x else x }

  /** The acceleration points against the velocity, or the axis is at rest. */
  predicate Opposed(speed: real, acce: real)
  {
    speed == 0.0 || speed * acce < 0.0
  }

  /** `speed ? (speed > 0 ? -1 : 1) * acceleration : 0`. */
  function InitialAcce(speed: real): (a: real)
    ensures a == 0.0 <==> speed == 0.0
    ensures Opposed(speed, a)
    ensures speed != 0.0 ==> Abs(a) == Deceleration
  {
    if speed != 0.0 then (if speed > 0.0 then -1.0 else 1.0) * Deceleration else 0.0
  }

  /** The release state built by `finishScroll` from the last move's delta and
      elapsed time. */
  function Release(dx: real, dy: real, dt: real, now: real): (m: Momentum)
    requires dt != 0.0
    ensures m.speedX * dt == dx && m.speedY * dt == dy
    ensures Opposed(m.speedX, m.acceX) && Opposed(m.speedY, m.acceY)
    ensures m.time == now
  {
    Momentum(dx / dt, dy / dt, InitialAcce(dx / dt), InitialAcce(dy / dt), now)
  }

  /** The velocity at the end of a tick of length `dt`. */
  function Velocity(speed: real, acce: real, dt: real): real
  {
    speed + acce * dt
  }

  /** `(v0 + v1) / 2 * t`: the displacement over a tick. */
  function Displacement(speed: real, acce: real, dt: real): real
  {
    (speed + Velocity(speed, acce, dt)) * dt / 2.0
  }

  /** `v1 * acce < 0 ? v1 : 0`: the axis stops once it has finished decelerating. */
  function NextSpeed(speed: real, acce: real, dt: real): real
  {
    var v := Velocity(speed, acce, dt);
    if v * acce < 0.0 then v else 0.0
  }

  /** One tick never reverses an axis, never speeds it up, and an axis at rest
      stays at rest, as long as the clock does not run backwards. */
  lemma NextSpeedDecelerates(speed: real, acce: real, dt: real)
    requires Opposed(speed, acce) && dt >= 0.0
    ensures Opposed(NextSpeed(speed, acce, dt), acce)
    ensures speed >= 0.0 ==> 0.0 <= NextSpeed(speed, acce, dt) <= speed
    ensures speed <= 0.0 ==> speed <= NextSpeed(speed, acce, dt) <= 0.0
    ensures speed == 0.0 ==> NextSpeed(speed, acce, dt) == 0.0
  {
    var v := Velocity(speed, acce, dt);
    if speed == 0.0 {
      assert v * acce == acce * acce * dt;
      assert acce * acce >= 0.0;
      assert acce * acce * dt >= 0.0;
    } else if speed > 0.0 {
      assert acce < 0.0;
      assert acce * dt <= 0.0;
      if v * acce < 0.0 {
        assert v > 0.0;
      }
    } else {
      assert acce > 0.0;
      assert acce * dt >= 0.0;
      if v * acce < 0.0 {
        assert v < 0.0;
      }
    }
  }

  /** Multiplying the deceleration by the brake factor keeps it opposed to the speed. */
  lemma BrakeKeepsOpposed(speed: real, acce: real)
    requires Opposed(speed, acce)
    ensures Opposed(speed, acce * OutOfBoundsBrake)
  {
    if speed != 0.0 {
      assert speed * (acce * OutOfBoundsBrake) == (speed * acce) * OutOfBoundsBrake;
    }
  }

  /** Whether another tick is scheduled: while either axis still moves. */
  predicate KeepsStepping(speedX: real, speedY: real)
  {
    speedX != 0.0 || speedY != 0.0
  }

  /** The test as the source writes it: `if (speed.x + speed.y)`, a signed sum. */
  predicate KeepsSteppingAsWritten(speedX: real, speedY: real)
  {
    speedX + speedY != 0.0
  }

  /** A diagonal fling released with equal and opposite velocities decelerates
      symmetrically, so after the first tick both axes still move while the
      signed sum is zero: the written test stops stepping, the intended one does not. */
  lemma SignedSumStopsWhileMoving()
    ensures var m := Release(30.0, -30.0, 10.0, 0.0);
            var sx := NextSpeed(m.speedX, m.acceX, 16.0);
            var sy := NextSpeed(m.speedY, m.acceY, 16.0);
            sx != 0.0 && sy != 0.0 && !KeepsSteppingAsWritten(sx, sy) && KeepsStepping(sx, sy)
  {
  }

  /** The two tests agree whenever the axes do not move in exactly opposite
      directions at the same speed. */
  lemma AsWrittenAgreesOffDiagonal(speedX: real, speedY: real)
    requires speedX != -speedY || speedX == 0.0
    ensures KeepsSteppingAsWritten(speedX, speedY) <==> KeepsStepping(speedX, speedY)
  {
  }
}
