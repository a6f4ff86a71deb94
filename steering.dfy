/** The speed-dependent turn rate and the steer angle of one tick. */
module Steering {
  import opened Input
  import opened Vectors

  const TURN_SPEED_MIN: real := 60.0
  const TURN_SPEED_MAX: real := 100.0
  const SPEED_MAX_TURN: real := 25.0
  const SPEED_MIN_TURN: real := 120.0

  /** Math.PI, written out to the digits JavaScript prints. */
  const PI: real := 3.141592653589793

  /** The turn rate at a given speed, in degrees per second although the
      constants are commented as radians. Below SPEED_MAX_TURN the rate is the
      mid-band formula scaled by speed / SPEED_MAX_TURN, so it ramps up from 0. */
  function TurnSpeed(speed: real): real {
    if speed < SPEED_MAX_TURN then
      (TURN_SPEED_MIN + (TURN_SPEED_MAX - TURN_SPEED_MIN) * (SPEED_MAX_TURN - speed) / SPEED_MAX_TURN)
        * (speed / SPEED_MAX_TURN)
    else if speed < SPEED_MIN_TURN then
      TURN_SPEED_MIN + (TURN_SPEED_MAX - TURN_SPEED_MIN) * (SPEED_MIN_TURN - speed) / (SPEED_MIN_TURN - SPEED_MAX_TURN)
    else
      TURN_SPEED_MIN
  }

  /** The angle turned in one tick of length dt at a given turn rate. */
  function TurnAngle(turnSpeed: real, dt: real): real {
    turnSpeed * dt * PI / 180.0
  }

  /** The steer angle of one tick. `own` are the flags of the truck being
      driven, which decide whether a turn rate is computed at all; `driver` are
      the flags of the global truck, which pick the direction. Right is checked
      after left, so it wins when both are held. */
  function SteerAngle(own: Controls, driver: Controls, speed: real, dt: real): real {
    if own.left || own.right then
      if driver.right then -TurnAngle(TurnSpeed(speed), dt)
      else if driver.left then TurnAngle(TurnSpeed(speed), dt)
      else 0.0
    else 0.0
  }

  /** The three speed bands of the turn curve. */
  lemma TurnSpeedBands(speed: real)
    requires speed >= 0.0
    ensures SPEED_MIN_TURN <= speed ==> TurnSpeed(speed) == TURN_SPEED_MIN
    ensures SPEED_MAX_TURN <= speed < SPEED_MIN_TURN ==> TURN_SPEED_MIN < TurnSpeed(speed) <= TURN_SPEED_MAX
    ensures speed < SPEED_MAX_TURN ==> 0.0 <= TurnSpeed(speed) < TURN_SPEED_MIN
    ensures speed == 0.0 ==> TurnSpeed(speed) == 0.0
    ensures 0.0 <= TurnSpeed(speed) <= TURN_SPEED_MAX
  {
    if speed < SPEED_MAX_TURN {
      var s := speed;
      assert TurnSpeed(s) == (100.0 - 1.6 * s) * s / 25.0;
      assert 100.0 - 1.6 * s > 0.0;
      MulNonNegative(100.0 - 1.6 * s, s);
      assert 60.0 - TurnSpeed(s) == 1.6 * ((25.0 - s) * (37.5 - s)) / 25.0;
      assert (25.0 - s) * (37.5 - s) > 0.0;
    }
  }

  /** In the middle band the turn rate falls as speed rises. */
  lemma TurnSpeedFallsInMiddleBand(a: real, b: real)
    requires SPEED_MAX_TURN <= a <= b < SPEED_MIN_TURN
    ensures TurnSpeed(b) <= TurnSpeed(a)
  {
  }

  /** In the low band the turn rate rises with speed. */
  lemma TurnSpeedRisesInLowBand(a: real, b: real)
    requires 0.0 <= a <= b < SPEED_MAX_TURN
    ensures TurnSpeed(a) <= TurnSpeed(b)
  {
    assert TurnSpeed(a) == (100.0 - 1.6 * a) * a / 25.0;
    assert TurnSpeed(b) == (100.0 - 1.6 * b) * b / 25.0;
    assert TurnSpeed(b) - TurnSpeed(a) == (b - a) * (100.0 - 1.6 * (a + b)) / 25.0;
    assert 100.0 - 1.6 * (a + b) >= 0.0;
    MulNonNegative(b - a, 100.0 - 1.6 * (a + b));
  }

  /** The curve is not continuous at SPEED_MAX_TURN: every speed below it turns
      more than 40 degrees per second slower than SPEED_MAX_TURN does. */
  lemma TurnSpeedJumpsAtMaxTurnSpeed(speed: real)
    requires 0.0 <= speed < SPEED_MAX_TURN
    ensures TurnSpeed(SPEED_MAX_TURN) == TURN_SPEED_MAX
    ensures TurnSpeed(speed) < TurnSpeed(SPEED_MAX_TURN) - 40.0
  {
    TurnSpeedBands(speed);
  }

  /** Steer selection when the driven truck is the global truck: no turn key
      gives 0, left alone a non-negative angle, right (with or without left)
      its negation; the angle never exceeds what TURN_SPEED_MAX allows. */
  lemma SteerSelection(c: Controls, speed: real, dt: real)
    requires speed >= 0.0 && dt >= 0.0
    ensures !c.left && !c.right ==> SteerAngle(c, c, speed, dt) == 0.0
    ensures c.left && !c.right ==> SteerAngle(c, c, speed, dt) == TurnAngle(TurnSpeed(speed), dt) >= 0.0
    ensures c.right ==> SteerAngle(c, c, speed, dt) == -TurnAngle(TurnSpeed(speed), dt) <= 0.0
    ensures -TurnAngle(TURN_SPEED_MAX, dt) <= SteerAngle(c, c, speed, dt) <= TurnAngle(TURN_SPEED_MAX, dt)
  {
    TurnSpeedBands(speed);
    var t := TurnSpeed(speed);
    MulNonNegative(t, dt);
    MulNonNegative(t * dt, PI);
    MulMonotone(t, TURN_SPEED_MAX, dt);
    MulMonotone(t * dt, TURN_SPEED_MAX * dt, PI);
  }

  /** When the driven truck holds no turn key, no angle is produced whatever
      the global truck's flags say. */
  lemma SteerNeedsOwnTurnKey(own: Controls, driver: Controls, speed: real, dt: real)
    requires !own.left && !own.right
    ensures SteerAngle(own, driver, speed, dt) == 0.0
  {
  }
}
