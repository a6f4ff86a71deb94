/** The velocity rules of one tick: slip damping, throttle, air resistance and gravity. */
module Dynamics {
  import opened Input
  import opened Vectors
  import opened Globe

  const FORWARD_ACCEL: real := 50.0
  const BACKWARD_ACCEL: real := 80.0
  /** Declared by the client but never enforced: drag alone bounds forward speed. */
  const MAX_FORWARD_SPEED: real := 100.0
  const MAX_REVERSE_SPEED: real := 40.0
  const GRAVITY: real := 9.8
  /** Time constant of the slip decay: the decay factor is exp(-dt / SLIP_TIME). */
  const SLIP_TIME: real := 0.5
  const DRAG_FACTOR: real := 0.0009
  const CONSTANT_DRAG: real := 2.0
  /** Speeds at or below this get no air resistance. */
  const DRAG_THRESHOLD: real := 0.01

  /** Removes the fraction (1 - decay) of the velocity's component along `leftDir`. */
  function Slip(vel: Vec3, leftDir: Vec3, decay: real): Vec3 {
    Sub(vel, Scale(leftDir, Dot(vel, leftDir) * (1.0 - decay)))
  }

  /** Throttle: forward has priority over backward, and backward accelerates
      only while the speed along `forwardDir` is above -MAX_REVERSE_SPEED. */
  function Throttle(vel: Vec3, forwardDir: Vec3, driver: Controls, dt: real): Vec3 {
    if driver.forward then
      Add(vel, Scale(forwardDir, FORWARD_ACCEL * dt))
    else if driver.backward && Dot(forwardDir, vel) > -MAX_REVERSE_SPEED then
      Add(vel, Scale(forwardDir, -BACKWARD_ACCEL * dt))
    else
      vel
  }

  /** The magnitude of air resistance at a speed, capped at the speed itself. */
  function DragMagnitude(speed: real): real {
    var drag := speed * speed * DRAG_FACTOR + CONSTANT_DRAG;
    if drag > speed then speed else drag
  }

  /** The speed left after one tick of air resistance. */
  function SpeedAfterDrag(speed: real, dt: real): real {
    speed - DragMagnitude(speed) * dt
  }

  /** Air resistance: above DRAG_THRESHOLD, subtracts drag * dt along the
      direction vel / speed, where `speed` is the magnitude of `vel`. */
  function Drag(vel: Vec3, speed: real, dt: real): Vec3 {
    if speed > DRAG_THRESHOLD then
      Sub(vel, Scale(Scale(vel, 1.0 / speed), DragMagnitude(speed) * dt))
    else
      vel
  }

  /** Gravity pulls along the reverse of the geodetic surface normal. */
  function Gravity(vel: Vec3, surfaceNormal: Vec3, dt: real): Vec3 {
    Add(vel, Scale(surfaceNormal, -GRAVITY * dt))
  }

  /** Slip damping scales the lateral component by exactly the decay factor and
      leaves every component perpendicular to the lateral axis alone. */
  lemma SlipDecaysLateral(vel: Vec3, leftDir: Vec3, decay: real)
    requires IsUnit(leftDir)
    ensures Dot(Slip(vel, leftDir, decay), leftDir) == decay * Dot(vel, leftDir)
    ensures forall u: Vec3 {:trigger Dot(u, leftDir)} :: Dot(u, leftDir) == 0.0 ==> Dot(Slip(vel, leftDir, decay), u) == Dot(vel, u)
  {
    var k := Dot(vel, leftDir) * (1.0 - decay);
    DotSub(vel, Scale(leftDir, k), leftDir);
    DotScale(leftDir, k, leftDir);
    forall u: Vec3 | Dot(u, leftDir) == 0.0
      ensures Dot(Slip(vel, leftDir, decay), u) == Dot(vel, u)
    {
      DotSub(vel, Scale(leftDir, k), u);
      DotScale(leftDir, k, u);
      DotSymmetric(u, leftDir);
    }
  }

  /** The speed along a unit forward axis after the throttle: +FORWARD_ACCEL*dt
      when forward is held (whatever backward says), -BACKWARD_ACCEL*dt when only
      backward is held and the truck is not yet reversing at MAX_REVERSE_SPEED,
      unchanged otherwise; lateral components are never touched. */
  lemma ThrottleForwardSpeed(vel: Vec3, forwardDir: Vec3, driver: Controls, dt: real)
    requires IsUnit(forwardDir)
    ensures Dot(forwardDir, Throttle(vel, forwardDir, driver, dt)) ==
      Dot(forwardDir, vel) +
        (if driver.forward then FORWARD_ACCEL * dt
         else if driver.backward && Dot(forwardDir, vel) > -MAX_REVERSE_SPEED then -BACKWARD_ACCEL * dt
         else 0.0)
    ensures forall u: Vec3 {:trigger Dot(u, forwardDir)} :: Dot(u, forwardDir) == 0.0 ==>
      Dot(Throttle(vel, forwardDir, driver, dt), u) == Dot(vel, u)
  {
    var a := if driver.forward then FORWARD_ACCEL * dt else -BACKWARD_ACCEL * dt;
    DotAdd(vel, Scale(forwardDir, a), forwardDir);
    DotScale(forwardDir, a, forwardDir);
    DotSymmetric(forwardDir, vel);
    DotSymmetric(forwardDir, Throttle(vel, forwardDir, driver, dt));
    forall u: Vec3 | Dot(u, forwardDir) == 0.0
      ensures Dot(Throttle(vel, forwardDir, driver, dt), u) == Dot(vel, u)
    {
      DotAdd(vel, Scale(forwardDir, a), u);
      DotScale(forwardDir, a, u);
      DotSymmetric(u, forwardDir);
    }
  }

  /** Backing up can only start from above -MAX_REVERSE_SPEED, so a single tick
      of reverse never drives the forward speed below -(MAX_REVERSE_SPEED + BACKWARD_ACCEL*dt). */
  lemma ReverseSpeedGated(vel: Vec3, forwardDir: Vec3, driver: Controls, dt: real)
    requires IsUnit(forwardDir) && !driver.forward && dt >= 0.0
    ensures Dot(forwardDir, Throttle(vel, forwardDir, driver, dt)) <= Dot(forwardDir, vel)
    ensures Dot(forwardDir, vel) > -MAX_REVERSE_SPEED ==>
      Dot(forwardDir, Throttle(vel, forwardDir, driver, dt)) > -MAX_REVERSE_SPEED - BACKWARD_ACCEL * dt
    ensures Dot(forwardDir, vel) <= -MAX_REVERSE_SPEED ==> Throttle(vel, forwardDir, driver, dt) == vel
  {
    ThrottleForwardSpeed(vel, forwardDir, driver, dt);
  }

  /** The drag applied is min(speed, DRAG_FACTOR*speed^2 + CONSTANT_DRAG): positive and never above the speed. */
  lemma DragMagnitudeBounds(speed: real)
    requires speed > 0.0
    ensures 0.0 < DragMagnitude(speed) <= speed
    ensures DragMagnitude(speed) <= speed * speed * DRAG_FACTOR + CONSTANT_DRAG
    ensures DragMagnitude(speed) == speed || DragMagnitude(speed) == speed * speed * DRAG_FACTOR + CONSTANT_DRAG
  {
    MulNonNegative(speed, speed);
  }

  /** Subtracting m along the direction v / s is scaling v by (s - m) / s. */
  lemma SubtractAlongDirection(v: Vec3, s: real, m: real)
    requires s > 0.0
    ensures Sub(v, Scale(Scale(v, 1.0 / s), m)) == Scale(v, (s - m) / s)
  {
    var k := (s - m) / s;
    assert 1.0 / s * m == 1.0 - k;
    assert v.x * (1.0 / s) * m == v.x * (1.0 - k);
    assert v.y * (1.0 / s) * m == v.y * (1.0 - k);
    assert v.z * (1.0 / s) * m == v.z * (1.0 - k);
  }

  /** A real multiple of a vector of magnitude s has magnitude |k| * s. */
  lemma ScaledMagnitude(v: Vec3, k: real, s: real)
    requires s * s == Dot(v, v)
    ensures Dot(Scale(v, k), Scale(v, k)) == (k * s) * (k * s)
  {
    DotScale(v, k, Scale(v, k));
    DotSymmetric(v, Scale(v, k));
    DotScale(v, k, v);
    assert Dot(Scale(v, k), Scale(v, k)) == k * (k * (s * s));
  }

  /** A quantity between 0 and s is a fraction in [0, 1] of s. */
  lemma FractionOf(a: real, s: real)
    requires s > 0.0 && 0.0 <= a <= s
    ensures 0.0 <= a / s <= 1.0 && a / s * s == a
  {
    var q := a / s;
    assert q * s == a;
    if q < 0.0 {
      MulMonotone(q, 0.0, s);
    }
    if q > 1.0 {
      MulMonotone(1.0, q, s);
    }
  }

  /** A drag of at most the speed, applied for at most a second, leaves a
      fraction in [0, 1] of the speed. */
  lemma DragFraction(speed: real, drag: real, dt: real)
    requires 0.0 < drag <= speed && 0.0 <= dt <= 1.0
    ensures 0.0 <= drag * dt <= speed
    ensures 0.0 <= (speed - drag * dt) / speed <= 1.0
    ensures (speed - drag * dt) / speed * speed == speed - drag * dt
  {
    MulMonotone(dt, 1.0, drag);
    MulNonNegative(drag, dt);
    assert dt * drag == drag * dt;
    FractionOf(speed - drag * dt, speed);
  }

  /** Air resistance never reverses the velocity: below the threshold the
      velocity is untouched, above it (for a tick of at most a second) the
      result is the velocity scaled by a factor in [0, 1]. */
  lemma DragKeepsDirection(vel: Vec3, speed: real, dt: real)
    requires 0.0 <= dt <= 1.0
    ensures speed <= DRAG_THRESHOLD ==> Drag(vel, speed, dt) == vel
    ensures speed > DRAG_THRESHOLD ==>
      && 0.0 <= SpeedAfterDrag(speed, dt) / speed <= 1.0
      && Drag(vel, speed, dt) == Scale(vel, SpeedAfterDrag(speed, dt) / speed)
  {
    if speed > DRAG_THRESHOLD {
      var d := DragMagnitude(speed);
      DragMagnitudeBounds(speed);
      DragFraction(speed, d, dt);
      assert SpeedAfterDrag(speed, dt) == speed - d * dt;
      SubtractAlongDirection(vel, speed, d * dt);
      assert Drag(vel, speed, dt) == Sub(vel, Scale(Scale(vel, 1.0 / speed), d * dt));
    }
  }

  /** Scaling by a non-negative factor scales the measured length by that factor. */
  lemma ScaledLength(env: Env, v: Vec3, k: real)
    requires MeasuresLength(env) && k >= 0.0
    ensures env.magnitude(Scale(v, k)) == k * env.magnitude(v)
  {
    var s := env.magnitude(v);
    var m := env.magnitude(Scale(v, k));
    assert s >= 0.0 && s * s == Dot(v, v);
    assert m >= 0.0 && m * m == Dot(Scale(v, k), Scale(v, k));
    ScaledMagnitude(v, k, s);
    MulNonNegative(k, s);
    SquareRootUnique(m, k * s);
  }

  /** Measured by a magnitude that is the Euclidean length, the speed after
      air resistance is speed - drag*dt (so, a length, never negative). */
  lemma DragMagnitudeAfter(env: Env, vel: Vec3, dt: real)
    requires MeasuresLength(env) && env.magnitude(vel) > DRAG_THRESHOLD
    requires 0.0 <= dt <= 1.0
    ensures env.magnitude(Drag(vel, env.magnitude(vel), dt)) == SpeedAfterDrag(env.magnitude(vel), dt)
  {
    var speed := env.magnitude(vel);
    var k := SpeedAfterDrag(speed, dt) / speed;
    DragKeepsDirection(vel, speed, dt);
    DragMagnitudeBounds(speed);
    DragFraction(speed, DragMagnitude(speed), dt);
    ScaledLength(env, vel, k);
    assert k * speed == SpeedAfterDrag(speed, dt);
  }

  /** Gravity lowers the speed along a unit surface normal by exactly GRAVITY*dt. */
  lemma GravityAlongNormal(vel: Vec3, surfaceNormal: Vec3, dt: real)
    requires IsUnit(surfaceNormal)
    ensures Dot(surfaceNormal, Gravity(vel, surfaceNormal, dt)) == Dot(surfaceNormal, vel) - GRAVITY * dt
  {
    DotAdd(vel, Scale(surfaceNormal, -GRAVITY * dt), surfaceNormal);
    DotScale(surfaceNormal, -GRAVITY * dt, surfaceNormal);
    DotSymmetric(surfaceNormal, vel);
    DotSymmetric(surfaceNormal, Gravity(vel, surfaceNormal, dt));
  }
}
