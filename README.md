# MultiTruck client core in Dafny

MultiTruck is a browser game: each client drives a truck over Cesium's 3D
globe and mirrors the other players and the projectiles a server broadcasts.
This project models the rule-level logic of the client, `multitruck.js`:

- the per-tick truck update `Truck.driveTick`:
  - the airborne test;
  - the speed-dependent turn curve and steer selection;
  - slip damping and the throttle (forward priority, reverse gate);
  - air resistance and gravity;
  - integration and the clamp onto the terrain;
  - cancelling velocity into the ground;
  - blending the up axis toward the estimated ground normal;
- the fixed-timestep accumulator `frame`;
- the keydown and keyup flag handlers;
- the `serverEmitsData` handler, which reconciles the player and projectile mirrors.

Arithmetic is exact over `real`. Every Cesium or `Math` call the tick makes is a
total function field of `Globe.Env`, handed to the model:

- `Cartographic.fromCartesian` and `Cartesian3.fromRadians`;
- `globe.getHeight`, which gives `None` for an undefined or NaN height;
- `Cartesian3.magnitude`, `Cartesian3.normalize`, `Math.exp` and `rotate`;
- `geodeticSurfaceNormal` and `eastNorthUpToFixedFrame`.

The properties the proofs need of these calls are stated as predicates, and a
lemma that needs one takes it as a precondition:

- `CartoRoundTrip`: fromRadians then fromCartesian gives back any point that fromCartesian produced, with its height replaced;
- `NormalizesToUnit`: normalize returns a unit vector;
- `MeasuresLength`: magnitude is the Euclidean length, never negative and squaring to the dot product;
- `Orthonormal`: the east/north/up frame is orthonormal.

Modules:

- `Vectors`: the `Cartesian3` arithmetic.
- `Globe`: the oracles.
- `Input`: the flags and key codes.
- `Steering`: the turn curve and the steer angle.
- `Dynamics`: slip, throttle, drag and gravity.
- `Ground`: the airborne test, the clamp, the cancel, the ground normal and the up blend.
- `Locomotion`: `DriveStep`, the pure reference for one `driveTick`, and
  `DriveTicks`, which runs it n times.
- `Accumulator`: the frame arithmetic.
- `Mirror`: the reference results of a broadcast.
- `Client`: the mutable state.
  - `Truck` is a class with the source's fields. The Cesium entity's position
    and orientation are folded in, and the orientation is kept as the three
    columns of its matrix.
  - `Client` holds `deltaT`, the two mirrors, `userId`, `INITIAL_ORIENT` and the
    global `truck`.
  - `Truck.DriveTick` updates the fields step by step in the order of the source
    and is proved equal to `DriveStep`.
  - `driveTick` reads the left, right, forward and backward flags of the global
    `truck`, not of `this`, for the steering direction and the throttle. It tests
    `this.left || this.right` only to decide whether a turn rate is computed at
    all. The model keeps that distinction:
    - `DriveTick` takes the global truck as a parameter;
    - `DriveStep` takes the two sets of flags (`own`, `driver`).

The model follows these details of the code:

- An undefined or NaN ground height makes `isAirborne` false, because
  `NaN > 0.3` is false, so the truck counts as grounded. It is not airborne.
- The turn rate is converted with `PI / 180`, although its constants are
  commented as radians per second.
- The low speed band ramps from 0, not from the minimum rate. The curve then
  jumps from about 60 to 100 at speed 25.
- After blending the up axis, forward is not re-orthogonalised, so the frame is
  not kept orthonormal. Only the left axis is proved perpendicular to the other
  two.
- `estimateGroundNormal` samples the ellipsoidal height of the four offset
  points (`Cartographic.fromCartesian(...).height`), not the terrain height.
- No server-side projectile motion, range cutoff or collision exists in the
  code. The removal list is an input of the broadcast.

## Model

| member | source | states |
|---|---|---|
| `Steering.TurnSpeed` | multitruck.js:85-94 | definition of the turn curve; specified by `Steering.TurnSpeedBands`, `Steering.TurnSpeedFallsInMiddleBand`, `Steering.TurnSpeedRisesInLowBand` and `Steering.TurnSpeedJumpsAtMaxTurnSpeed` |
| `Steering.SteerAngle` | multitruck.js:75-101 | definition of the steer angle; specified by `Steering.SteerSelection` and `Steering.SteerNeedsOwnTurnKey` |
| `Steering.TurnSpeedBands` | multitruck.js:85-94 | For speed >= 0 the turn curve `TurnSpeed` is exactly 60 at and above 120, lies in (60, 100] on [25, 120), lies in [0, 60) below 25 and is 0 at speed 0; so it is between 0 and 100 everywhere |
| `Steering.TurnSpeedFallsInMiddleBand` | multitruck.js:90-91 | On [25, 120) the turn rate never increases with speed |
| `Steering.TurnSpeedRisesInLowBand` | multitruck.js:87-89 | Below 25 the turn rate never decreases with speed, because it is multiplied by speed / 25 |
| `Steering.TurnSpeedJumpsAtMaxTurnSpeed` | multitruck.js:87-91 | The curve is discontinuous at 25: the rate there is 100, and every lower speed turns more than 40 slower |
| `Steering.SteerSelection` | multitruck.js:78-101 | With the driven truck as the global truck, `SteerAngle` is 0 without a turn key. It is TurnSpeed*dt*PI/180 (>= 0) with left only, and its negation whenever right is held, so right overrides left. Its size is bounded by the angle at rate 100 |
| `Steering.SteerNeedsOwnTurnKey` | multitruck.js:78 | When the driven truck holds neither turn key, the angle is 0 whatever the global truck's flags |
| `Ground.IsAirborne` | multitruck.js:69 | definition of the airborne test; specified by `Ground.AirborneKeptHigher`, `Locomotion.UnknownGroundIsGrounded` and `Locomotion.AirborneSkipsGroundRules` |
| `Ground.AirborneKeptHigher` | multitruck.js:69 | The test is monotone: a higher truck over the same known ground, or the same height over a lower known ground, stays airborne |
| `Locomotion.UnknownGroundIsGrounded` | multitruck.js:65-69 | A position whose terrain height is unknown is grounded |
| `Locomotion.AirborneSkipsGroundRules` | multitruck.js:104-193 | An airborne tick leaves forward and up unrotated and applies no slip, throttle, cancel or blend; velocity only gets drag and gravity |
| `Dynamics.SlipDecaysLateral` | multitruck.js:113-117 | Slip damping scales the velocity's component along a unit left axis by exactly the decay factor and keeps every component perpendicular to it |
| `Locomotion.SlipKeepsForwardSpeed` | multitruck.js:105-120 | Because left = up x forward, slip damping leaves the forward speed that the reverse gate reads unchanged, whatever the lengths of the axes |
| `Dynamics.ThrottleForwardSpeed` | multitruck.js:119-129 | Along a unit forward axis, the throttle adds FORWARD_ACCEL*dt when forward is held, whether or not backward is. It subtracts BACKWARD_ACCEL*dt when only backward is held and forward speed > -40, and changes nothing otherwise. Lateral components are untouched |
| `Dynamics.Throttle` | multitruck.js:119-129 | definition of the throttle; specified by `Dynamics.ThrottleForwardSpeed` and `Dynamics.ReverseSpeedGated` |
| `Dynamics.ReverseSpeedGated` | multitruck.js:124-128 | Without forward held the forward speed never rises. From above -MAX_REVERSE_SPEED one tick keeps it above -(40 + 80*dt), and from -40 or below the velocity is unchanged |
| `Dynamics.Drag` | multitruck.js:132-149 | definition of air resistance; specified by `Dynamics.DragKeepsDirection` and `Dynamics.DragMagnitudeAfter` |
| `Dynamics.DragMagnitudeBounds` | multitruck.js:137-146 | For positive speed the drag is min(speed, 0.0009*speed^2 + 2): positive and at most the speed |
| `Dynamics.DragKeepsDirection` | multitruck.js:133-149 | For dt in [0, 1], at or below speed 0.01 the velocity is untouched. Above it, the result is the velocity scaled by a factor in [0, 1], so the direction never flips |
| `Dynamics.DragMagnitudeAfter` | multitruck.js:133-149 | When magnitude measures Euclidean length, the speed is above the drag threshold and dt is in [0, 1], the magnitude of the velocity after drag is speed - drag*dt, so it is never negative |
| `Dynamics.GravityAlongNormal` | multitruck.js:151-154 | Gravity lowers the velocity along the unit geodetic surface normal by exactly 9.8*dt |
| `Ground.ClampToGround` | multitruck.js:160-166 | Under a known ground height the height becomes exactly the ground height; otherwise, or with no known height, the point is unchanged; longitude and latitude never change |
| `Ground.ClampIdempotent` | multitruck.js:160-166 | A clamped point is not under the terrain, so clamping again changes nothing |
| `Locomotion.MovedNotBelowGround` | multitruck.js:156-168 | If fromRadians gives back fromCartesian's points with a new height, the position after integration and clamp is not under the terrain, and has the integrated point's longitude and latitude |
| `Locomotion.NeverBelowGround` | multitruck.js:61-194 | Under the same round-trip premise, no tick, airborne or grounded, ends under the terrain |
| `Ground.CancelIntoGround` | multitruck.js:170-177 | definition of the cancel; specified by `Ground.CancelLeavesNothingIntoGround` and `Ground.CancelIdempotent` |
| `Ground.CancelLeavesNothingIntoGround` | multitruck.js:170-177 | With a unit ground normal n: if v.n < 0 the result's component along n is exactly 0, otherwise v is unchanged. The result never points into the ground, and components along the ground plane are kept |
| `Ground.CancelIdempotent` | multitruck.js:170-177 | Cancelling twice is cancelling once |
| `Locomotion.GroundedNotIntoGround` | multitruck.js:170-177 | After a grounded tick the velocity has no component into the estimated ground normal, given normalize yields unit vectors and the ENU frame is orthonormal |
| `Ground.LocalNormalOfPlane` | multitruck.js:239-246 | On a plane h = c + a*e + b*n, the local normal (h1-h0, h3-h2, 2) is perpendicular to both sampled slopes, and flat ground gives (0, 0, 2) |
| `Ground.LocalToWorldKeepsUnit` | multitruck.js:249 | Mapping a unit vector through an orthonormal east/north/up frame gives a unit vector |
| `Ground.EastDot` | multitruck.js:249 | Through an orthonormal frame, the world vector's east component is the local x |
| `Ground.NorthDot` | multitruck.js:249 | Through an orthonormal frame, the world vector's north component is the local y |
| `Ground.UpDot` | multitruck.js:249 | Through an orthonormal frame, the world vector's up component is the local z |
| `Ground.EstimateGroundNormal` | multitruck.js:227-251 | definition of the ground-normal estimate; specified by `Ground.GroundNormalIsUnit`, `Ground.LocalNormalOfPlane` and the frame lemmas above |
| `Ground.GroundNormalIsUnit` | multitruck.js:227-251 | `EstimateGroundNormal` returns a unit vector when normalize does and the frame is orthonormal |
| `Ground.BlendUpFixesGroundNormal` | multitruck.js:179-185 | Blending an up axis that already equals the ground normal leaves it there, whatever the decay factor |
| `Locomotion.LeftIsLateral` | multitruck.js:103-108 | After every tick the left axis is perpendicular to forward and to up (left = up x forward, re-derived after steering and after the blend) |
| `Locomotion.DriveStep` | multitruck.js:61-194 | definition of one `driveTick` as a function of the state; specified by `Client.Truck.DriveTick`, `Locomotion.NeverBelowGround`, `Locomotion.GroundedNotIntoGround`, `Locomotion.LeftIsLateral` and `Locomotion.AirborneSkipsGroundRules` |
| `Locomotion.Moved` | multitruck.js:156-168 | definition of integration and clamp; specified by `Locomotion.MovedNotBelowGround` |
| `Locomotion.TickConstantsAgree` | multitruck.js:9-10 | dt is 1 / TICKRATE seconds and the tick interval is 1000 / TICKRATE milliseconds, one tick either way |
| `Locomotion.IterateCompose` | multitruck.js:281-284 | n steps of a tick function followed by m more are n + m steps |
| `Locomotion.DriveTicksCompose` | multitruck.js:281-284 | a ticks followed by b ticks under unchanged flags and unchanged terrain (one environment) are a + b ticks, so two such frames in a row drive the truck as one frame with all their ticks would |
| `Locomotion.DriveTicksStep` | multitruck.js:281-284 | One more tick is one more `DriveStep` on the state after the earlier ticks |
| `Client.Truck.constructor` | multitruck.js:51-59 | A new truck has health 100, zero velocity and all four flags cleared |
| `Client.Truck.DriveTick` | multitruck.js:61-194 | The new position, orientation and velocity are `DriveStep` of the old ones, with this truck's flags as `own` and the global truck's as `driver`; flags and health are unchanged |
| `Client.Truck.Steer` | multitruck.js:75-108 | The new orientation is the old one steered by `SteerAngle`, unless airborne, with left re-derived as up x forward |
| `Client.Truck.Propel` | multitruck.js:110-154 | The new velocity is `Propelled`: slip and throttle only when grounded, then drag and gravity along the surface normal at the start position |
| `Client.Truck.Grip` | multitruck.js:112-130 | The new velocity is the slip-damped velocity put through the throttle with the global truck's flags |
| `Client.Truck.AirResistance` | multitruck.js:132-149 | The new velocity is `Drag` of the old one at its magnitude |
| `Client.Truck.Move` | multitruck.js:156-168 | The new position is `Moved`: integrated, then clamped onto known terrain |
| `Client.Truck.Settle` | multitruck.js:170-193 | Velocity is cancelled into the ground normal estimated at the new position. Up becomes the normalized blend of the pre-tick up and that normal, with left re-derived and forward kept |
| `Accumulator.CappedElapsed` | multitruck.js:280 | Math.min(1000, elapsed): at most 1000, at most elapsed, and one of the two |
| `Accumulator.TickCount` | multitruck.js:281-284 | For a non-negative carry, n whole intervals fit: n*TICK_INTERVAL <= carry < (n+1)*TICK_INTERVAL |
| `Accumulator.TickCountUnique` | multitruck.js:281-284 | That count is the only one that fits, i.e. floor(carry / TICK_INTERVAL) |
| `Accumulator.FrameTicks` | multitruck.js:281-284 | definition of the tick count of a frame; specified by `Accumulator.TickCount`, `Accumulator.DrainContinues`, `Accumulator.DrainStops` and `Accumulator.FrameTicksBounded` |
| `Accumulator.DrainContinues` | multitruck.js:281-284 | While the loop guard holds, fewer than `FrameTicks` ticks have run, so the drain never overshoots |
| `Accumulator.DrainStops` | multitruck.js:281-284 | When the guard fails the loop has run exactly `FrameTicks` ticks and left `Leftover` as the carry; a negative carry runs none |
| `Accumulator.Leftover` | multitruck.js:278-286 | The carry left after a frame is below one interval, non-negative when the carry was, and the whole carry when it was under one interval |
| `Accumulator.FrameTicksBounded` | multitruck.js:278-286 | Starting from a carry below TICK_INTERVAL (negative included), a frame runs at most TICKRATE = 60 ticks, since 1000 = 60 intervals |
| `Client.Client.constructor` | multitruck.js:331-341 | A new client has carry 0 and empty mirrors |
| `Client.Client.Frame` | multitruck.js:278-286 | Runs exactly `FrameTicks` ticks and leaves `Leftover` as the carry. The truck ends at `DriveTicks` of its old state under its unchanged flags, and its health is unchanged |
| `Client.Client.TickOwnTruck` | multitruck.js:257-258 | One tick of the global truck extends a run of n ticks from a start state to n + 1 |
| `Input.Pressed` | multitruck.js:289-302 | keydown sets exactly the flag bound to the key (87 forward, 65 left, 83 backward, 68 right) and keeps the other three; any other key changes nothing |
| `Input.ReleasedKey` | multitruck.js:304-315 | keyup clears exactly the flag bound to the key and keeps the other three; any other key changes nothing |
| `Input.UnboundKeysChangeNothing` | multitruck.js:289-315 | A key bound to no flag, space among them, leaves the flags as they were on keydown and on keyup |
| `Input.ReleaseAfterPress` | multitruck.js:289-315 | keyup after keydown of a key is keyup alone, and keydown after keyup is keydown alone |
| `Input.PressIdempotent` | multitruck.js:289-315 | A repeated keydown, or keyup, of the same key changes nothing more |
| `Client.Client.KeyDown` | multitruck.js:289-302 | The global truck's flags become `Pressed` of the old ones; fire is requested exactly on key 32; position, orientation, velocity and health are untouched |
| `Client.Client.KeyUp` | multitruck.js:304-315 | The global truck's flags become `ReleasedKey` of the old ones; nothing else of the truck changes |
| `Mirror.MergedPlayers` | multitruck.js:353-374 | Every broadcast player except the client's own ends up present, with the server's position and orientation. Entries are never deleted, unbroadcast entries are untouched, and the own id is never added |
| `Mirror.OwnHealth` | multitruck.js:355-357 | definition of the health update; specified by `Mirror.OwnHealthReadsOnlyOwnEntry` and `Client.Client.UpdatePlayers` |
| `Mirror.OwnHealthReadsOnlyOwnEntry` | multitruck.js:354-357 | Only the own entry sets the health: changing or adding another player's entry leaves it unchanged, and the broadcast cut down to the own entry gives the same health |
| `Mirror.MergedProjectiles` | multitruck.js:376-392 | Every broadcast projectile ends up present at the server's position. A new one gets INITIAL_ORIENT and an existing one keeps its orientation. The keys are old keys plus broadcast keys, and others are untouched |
| `Mirror.Removed` | multitruck.js:394-403 | Listed ids are gone, ids not in the mirror are skipped, and every other entry is untouched |
| `Mirror.ProjectileReconciliation` | multitruck.js:376-403 | After a broadcast, a projectile is present at the server's position unless listed for removal. Every listed id is absent, even one broadcast in the same message, and nothing appears from nowhere |
| `Client.Client.ServerEmitsData` | multitruck.js:352-404 | Player mirror, own health and projectile mirror become `MergedPlayers`, `OwnHealth` and `Removed(MergedProjectiles(...))` of the old state; carry and truck kinematics and flags are unchanged |
| `Client.Client.UpdatePlayers` | multitruck.js:353-374 | The player loop yields `MergedPlayers` and `OwnHealth` in whatever order the ids are visited |
| `Client.Client.UpdateProjectiles` | multitruck.js:376-392 | The projectile loop yields `MergedProjectiles` in whatever order the ids are visited |
| `Client.Client.RemoveProjectiles` | multitruck.js:394-403 | The removal loop yields `Removed` of the old mirror |

## Left out

- Rendering is not modelled: the Cesium viewer, terrain provider, entity creation and removal, `cameraTick`, and `console.log` in the removal loop.
- Quaternion and matrix conversion (`Matrix3.fromQuaternion`, `Quaternion.fromRotationMatrix`) is not modelled; the orientation is stored as the three matrix columns the tick writes. In the code that round trip is not lossless: `Matrix3.fromQuaternion` always yields a rotation matrix scaled by the squared norm of q, so every tick starts from mutually orthogonal axes whatever `fromRotationMatrix` made of the blended, non-orthogonal matrix. The model keeps the written columns instead, so over many ticks its forward and up may drift away from orthogonal and its left axis (up x forward) may grow shorter than 1; lemmas that need a unit or orthogonal axis take it as a precondition.
- `rotate`, `Math.exp`, `Cartesian3.magnitude`, `Cartesian3.normalize`, `geodeticSurfaceNormal`, `eastNorthUpToFixedFrame`, `Cartographic.fromCartesian`, `Cartesian3.fromRadians` and `globe.getHeight` are foreign library or terrain calls. They are oracle fields of `Globe.Env`, and the normalization inside the drag step is written exactly as velocity / speed.
- Floating point is not modelled: rounding, and NaN arising anywhere other than an unknown ground height.
- `tick`'s other work is left out: `updateHealthBar` (DOM) and the `serverReceivesClientData` emit. `fireProjectile` is reduced to the boolean `fire` that `KeyDown` returns, because its geometry and the emit are library and transport calls.
- The socket.io transport is left out: `playerConnect`, the emits and the wiring of `serverEmitsData`. `requestAnimationFrame` and `performance.now()` are left out too. The `elapsed` parameter of `Frame` is the code's `now - timestamp`, where `timestamp` is the requestAnimationFrame time of the current frame itself (not of the previous frame), read against `performance.now()` at the start of the callback.
- The random `userId` is a constructor argument.
- server.js is not part of this model: it only serves files and registers an empty socket handler.
- Ids are `int`. JavaScript object keys are strings compared loosely (`==`) with the numeric `userId`, which the model takes as plain equality.
- An entity object is always truthy, so the source's truthiness tests on the mirrors become key membership.
- `MAX_FORWARD_SPEED` is declared but never read by the code, so nothing is bounded by it.
- No orthonormality of the whole frame is stated, because the code does not re-orthogonalise forward after blending the up axis. `Locomotion.LeftIsLateral` states the part that holds.
