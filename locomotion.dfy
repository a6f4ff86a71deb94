/** One tick of the truck's driving model as a function of its state, and
    what that tick promises. */
module Locomotion {
  import opened Wrappers
  import opened Vectors
  import opened Globe
  import opened Input
  import opened Steering
  import opened Dynamics
  import opened Ground
  import opened Accumulator

  /** The client's dt in seconds, 1 / TICKRATE: one tick interval. */
  const DT: real := 1.0 / 60.0

  /** dt and the accumulator's tick interval are both derived from TICKRATE:
      one tick lasts 1 / TICKRATE seconds, which is TICK_INTERVAL milliseconds. */
  lemma TickConstantsAgree()
    ensures DT * TICKRATE as real == 1.0
    ensures TICK_INTERVAL * TICKRATE as real == 1000.0
    ensures TICK_INTERVAL == 1000.0 * DT
  {
  }

  /** The orientation matrix by its columns: forward, left and up. */
  datatype Axes = Axes(forward: Vec3, left: Vec3, up: Vec3)

  /** What a tick changes: position (Cartesian), orientation and velocity. */
  datatype Kinematics = Kinematics(position: Vec3, orientation: Axes, vel: Vec3)

  /** The airborne test at a position, against the terrain under it. */
  function AirborneAt(env: Env, pos: Vec3): bool {
    var c := env.toCarto(pos);
    IsAirborne(c.height, GroundAt(env, c))
  }

  /** The forward axis after steering and the left axis re-derived from it. */
  function Steered(o: Axes, airborne: bool, angle: real, env: Env): Axes {
    var forward := if airborne then o.forward else env.rotate(o.forward, o.up, angle);
    Axes(forward, Cross(o.up, forward), o.up)
  }

  /** Slip damping and throttle (grounded only), then air resistance and gravity. */
  function Propelled(vel: Vec3, o: Axes, airborne: bool, driver: Controls, env: Env, pos0: Vec3, dt: real): Vec3 {
    var v1 := if airborne then vel else Throttle(Slip(vel, o.left, env.exp(-dt / SLIP_TIME)), o.forward, driver, dt);
    var v2 := Drag(v1, env.magnitude(v1), dt);
    Gravity(v2, env.surfaceNormal(pos0), dt)
  }

  /** The new position: integrate, then lift onto the terrain if under it. */
  function Moved(pos0: Vec3, vel: Vec3, env: Env, dt: real): Vec3 {
    var pos1 := Add(pos0, Scale(vel, dt));
    var c := env.toCarto(pos1);
    if BelowGround(c, GroundAt(env, c)) then env.fromCarto(ClampToGround(c, GroundAt(env, c))) else pos1
  }

  /** One call of driveTick. `own` are the flags of the truck being driven,
      `driver` those of the global truck, which the steering direction and the
      throttle read. */
  function DriveStep(k: Kinematics, own: Controls, driver: Controls, env: Env, dt: real): Kinematics {
    var airborne := AirborneAt(env, k.position);
    var angle := SteerAngle(own, driver, env.magnitude(k.vel), dt);
    var o := Steered(k.orientation, airborne, angle, env);
    var vel := Propelled(k.vel, o, airborne, driver, env, k.position, dt);
    var pos := Moved(k.position, vel, env, dt);
    if airborne then
      Kinematics(pos, o, vel)
    else
      var n := EstimateGroundNormal(env, pos);
      var up := env.normalize(BlendUp(o.up, n, env.exp(-dt / UP_BLEND_TIME)));
      Kinematics(pos, Axes(o.forward, Cross(up, o.forward), up), CancelIntoGround(vel, n))
  }

  /** `n` applications of a tick function. */
  function Iterate(step: Kinematics -> Kinematics, k: Kinematics, n: nat): Kinematics {
    if n == 0 then k else step(Iterate(step, k, n - 1))
  }

  /** `n` ticks of the same truck under unchanged flags. */
  function DriveTicks(k: Kinematics, n: nat, c: Controls, env: Env, dt: real): Kinematics {
    Iterate(s => DriveStep(s, c, c, env, dt), k, n)
  }

  /** An airborne truck is not steered, slipped or throttled: forward and up
      stay as they were, and the velocity only loses air resistance and gains
      gravity. */
  lemma AirborneSkipsGroundRules(k: Kinematics, own: Controls, driver: Controls, env: Env, dt: real)
    requires AirborneAt(env, k.position)
    ensures var r := DriveStep(k, own, driver, env, dt);
      && r.orientation.forward == k.orientation.forward
      && r.orientation.up == k.orientation.up
      && r.vel == Gravity(Drag(k.vel, env.magnitude(k.vel), dt), env.surfaceNormal(k.position), dt)
  {
  }

  /** An unknown terrain height under the truck never makes it airborne. */
  lemma UnknownGroundIsGrounded(env: Env, pos: Vec3)
    requires GroundAt(env, env.toCarto(pos)).None?
    ensures !AirborneAt(env, pos)
  {
  }

  /** After every tick the left axis is perpendicular to both the forward and
      the up axis (the frame is not promised to be orthonormal). */
  lemma LeftIsLateral(k: Kinematics, own: Controls, driver: Controls, env: Env, dt: real)
    ensures var o := DriveStep(k, own, driver, env, dt).orientation;
      Dot(o.left, o.forward) == 0.0 && Dot(o.left, o.up) == 0.0
  {
    var airborne := AirborneAt(env, k.position);
    var o := Steered(k.orientation, airborne, SteerAngle(own, driver, env.magnitude(k.vel), dt), env);
    CrossOrthogonal(o.up, o.forward);
    if !airborne {
      var r := DriveStep(k, own, driver, env, dt).orientation;
      CrossOrthogonal(r.up, r.forward);
    }
  }

  /** Slip damping never changes the speed along the steered forward axis,
      because the left axis is the cross product up x forward. */
  lemma SlipKeepsForwardSpeed(vel: Vec3, o: Axes, env: Env, dt: real)
    requires o.left == Cross(o.up, o.forward)
    ensures Dot(Slip(vel, o.left, env.exp(-dt / SLIP_TIME)), o.forward) == Dot(vel, o.forward)
  {
    var k := Dot(vel, o.left) * (1.0 - env.exp(-dt / SLIP_TIME));
    CrossOrthogonal(o.up, o.forward);
    DotSub(vel, Scale(o.left, k), o.forward);
    DotScale(o.left, k, o.forward);
  }

  /** No ground penetration: when fromRadians and fromCartesian are inverse,
      the cartographic point after any tick, airborne or not, is not under the
      terrain there. */
  lemma NeverBelowGround(k: Kinematics, own: Controls, driver: Controls, env: Env, dt: real)
    requires CartoRoundTrip(env)
    ensures var c := env.toCarto(DriveStep(k, own, driver, env, dt).position);
      !BelowGround(c, GroundAt(env, c))
  {
    var airborne := AirborneAt(env, k.position);
    var o := Steered(k.orientation, airborne, SteerAngle(own, driver, env.magnitude(k.vel), dt), env);
    var vel := Propelled(k.vel, o, airborne, driver, env, k.position, dt);
    MovedNotBelowGround(k.position, vel, env, dt);
  }

  /** The clamp after integration: the moved point is not under the terrain and
      has the longitude and latitude of the integrated point. */
  lemma MovedNotBelowGround(pos0: Vec3, vel: Vec3, env: Env, dt: real)
    requires CartoRoundTrip(env)
    ensures var c := env.toCarto(Moved(pos0, vel, env, dt));
      !BelowGround(c, GroundAt(env, c))
    ensures var c1 := env.toCarto(Add(pos0, Scale(vel, dt)));
      var c := env.toCarto(Moved(pos0, vel, env, dt));
      c.longitude == c1.longitude && c.latitude == c1.latitude
  {
    var c1 := env.toCarto(Add(pos0, Scale(vel, dt)));
    var g := GroundAt(env, c1);
    if BelowGround(c1, g) {
      var c := ClampToGround(c1, g);
      assert c == c1.(height := g.value);
      assert env.toCarto(env.fromCarto(c)) == c;
    }
  }

  /** After a grounded tick the velocity has no component into the ground,
      when the ground normal is estimated as a unit vector. */
  lemma GroundedNotIntoGround(k: Kinematics, own: Controls, driver: Controls, env: Env, dt: real)
    requires !AirborneAt(env, k.position)
    requires NormalizesToUnit(env)
    requires Orthonormal(env.enuFrame(DriveStep(k, own, driver, env, dt).position))
    ensures var r := DriveStep(k, own, driver, env, dt);
      Dot(EstimateGroundNormal(env, r.position), r.vel) >= 0.0
  {
    var r := DriveStep(k, own, driver, env, dt);
    var o := Steered(k.orientation, false, SteerAngle(own, driver, env.magnitude(k.vel), dt), env);
    var vel := Propelled(k.vel, o, false, driver, env, k.position, dt);
    var n := EstimateGroundNormal(env, r.position);
    GroundNormalIsUnit(env, r.position);
    CancelLeavesNothingIntoGround(vel, n);
  }

  /** Iterations compose: a steps followed by b steps are a + b steps. */
  lemma {:induction false} IterateCompose(step: Kinematics -> Kinematics, k: Kinematics, a: nat, b: nat)
    ensures Iterate(step, Iterate(step, k, a), b) == Iterate(step, k, a + b)
    decreases b
  {
    if b > 0 {
      IterateCompose(step, k, a, b - 1);
    }
  }

  /** Ticks compose: a ticks followed by b ticks are a + b ticks, so two frames
      in a row drive the truck as one frame with all their ticks would. */
  lemma DriveTicksCompose(k: Kinematics, a: nat, b: nat, c: Controls, env: Env, dt: real)
    ensures DriveTicks(DriveTicks(k, a, c, env, dt), b, c, env, dt) == DriveTicks(k, a + b, c, env, dt)
  {
    IterateCompose(s => DriveStep(s, c, c, env, dt), k, a, b);
  }

  /** One more tick is one more DriveStep on the result of the earlier ones. */
  lemma DriveTicksStep(k: Kinematics, n: nat, c: Controls, env: Env, dt: real)
    ensures DriveTicks(k, n + 1, c, env, dt) == DriveStep(DriveTicks(k, n, c, env, dt), c, c, env, dt)
  {
  }
}
