/** The client's mutable state: the truck it drives, the frame carry, and the
    mirrors of the server's players and projectiles. */
module Client {
  import opened Wrappers
  import opened Vectors
  import opened Globe
  import opened Input
  import opened Steering
  import opened Dynamics
  import opened Ground
  import opened Locomotion
  import opened Accumulator
  import opened Mirror

  /** The Truck class together with its Cesium entity's position and orientation. */
  class Truck {
    var health: int
    var position: Vec3
    var orientation: Axes
    var vel: Vec3
    var forward: bool
    var backward: bool
    var left: bool
    var right: bool

    constructor (position: Vec3, orientation: Axes)
      ensures this.position == position && this.orientation == orientation
      ensures health == 100 && vel == Zero && Flags() == Released
    {
      this.position := position;
      this.orientation := orientation;
      health := 100;
      vel := Zero;
      forward, backward, left, right := false, false, false, false;
    }

    function Flags(): Controls
      reads this
    {
      Controls(forward, backward, left, right)
    }

    function State(): Kinematics
      reads this
    {
      Kinematics(position, orientation, vel)
    }

    /** driveTick. `truck` is the global truck whose flags the steering
        direction and the throttle read; the client calls it with `this`.
        The four stages below follow the commented blocks of the source. */
    method DriveTick(env: Env, truck: Truck)
      modifies this
      ensures State() == DriveStep(old(State()), old(Flags()), old(truck.Flags()), env, DT)
      ensures Flags() == old(Flags()) && health == old(health)
    {
      var pos0 := position;
      var pos0Carto := env.toCarto(pos0);
      var groundHeight := GroundAt(env, pos0Carto);
      var speed := env.magnitude(vel);
      var isAirborne := IsAirborne(pos0Carto.height, groundHeight);
      var upDir := orientation.up;

      Steer(env, truck, isAirborne, speed);
      Propel(env, truck, isAirborne, pos0);
      Move(env, pos0);
      if !isAirborne {
        Settle(env, upDir);
      }
    }

    /** Steering: a turn angle from the turn curve when this truck holds a turn
        key (direction from the global truck's keys), applied to forward about
        up unless airborne, then left re-derived as up x forward. */
    method Steer(env: Env, truck: Truck, isAirborne: bool, speed: real)
      modifies this`orientation
      ensures orientation == Steered(old(orientation), isAirborne, SteerAngle(Flags(), truck.Flags(), speed, DT), env)
    {
      var forwardDir := orientation.forward;
      var upDir := orientation.up;
      var steerAngle := 0.0;
      if left || right {
        var turnSpeed := TurnSpeed(speed);
        if truck.left {
          steerAngle := turnSpeed * DT * PI / 180.0;
        }
        if truck.right {
          steerAngle := -turnSpeed * DT * PI / 180.0;
        }
      }
      forwardDir := if isAirborne then forwardDir else env.rotate(forwardDir, upDir, steerAngle);
      var leftDir := Cross(upDir, forwardDir);
      orientation := Axes(forwardDir, leftDir, upDir);
    }

    /** Slip damping and throttle when grounded, then air resistance and
        gravity along the surface normal at `pos0`. */
    method Propel(env: Env, truck: Truck, isAirborne: bool, pos0: Vec3)
      modifies this`vel
      ensures vel == Propelled(old(vel), orientation, isAirborne, truck.Flags(), env, pos0, DT)
    {
      if !isAirborne {
        Grip(env, truck);
      }
      AirResistance(env);
      vel := Add(vel, Scale(env.surfaceNormal(pos0), -GRAVITY * DT));
    }

    /** A share 1 - exp(-dt / SLIP_TIME) of the lateral velocity is removed,
        then the global truck's throttle keys accelerate along forward. */
    method Grip(env: Env, truck: Truck)
      modifies this`vel
      ensures vel == Throttle(Slip(old(vel), orientation.left, env.exp(-DT / SLIP_TIME)), orientation.forward, truck.Flags(), DT)
    {
      var forwardDir := orientation.forward;
      var leftDir := orientation.left;
      var slipMagnitude := Dot(vel, leftDir);
      var c0 := env.exp(-DT / SLIP_TIME);
      vel := Sub(vel, Scale(leftDir, slipMagnitude * (1.0 - c0)));
      assert vel == Slip(old(vel), leftDir, c0);
      var forwardSpeed := Dot(forwardDir, vel);
      if truck.forward {
        vel := Add(vel, Scale(forwardDir, FORWARD_ACCEL * DT));
      } else if truck.backward {
        if forwardSpeed > -MAX_REVERSE_SPEED {
          vel := Add(vel, Scale(forwardDir, -BACKWARD_ACCEL * DT));
        }
      }
    }

    /** Air resistance above DRAG_THRESHOLD, of magnitude speed^2 *
        DRAG_FACTOR + CONSTANT_DRAG capped at the speed. */
    method AirResistance(env: Env)
      modifies this`vel
      ensures vel == Drag(old(vel), env.magnitude(old(vel)), DT)
    {
      var speed := env.magnitude(vel);
      if speed > DRAG_THRESHOLD {
        var velDir := Scale(vel, 1.0 / speed);
        var drag := speed * speed * DRAG_FACTOR;
        drag := drag + CONSTANT_DRAG;
        if drag > speed {
          drag := speed;
        }
        vel := Sub(vel, Scale(velDir, drag * DT));
      }
    }

    /** Moves from `pos0` by vel * dt and lifts the result onto the terrain
        when it is under it. */
    method Move(env: Env, pos0: Vec3)
      modifies this`position
      ensures position == Moved(pos0, vel, env, DT)
    {
      var pos1 := Add(pos0, Scale(vel, DT));
      var pos1Carto := env.toCarto(pos1);
      var groundHeight := GroundAt(env, pos1Carto);
      if groundHeight.Some? && pos1Carto.height < groundHeight.value {
        pos1 := env.fromCarto(Carto(pos1Carto.longitude, pos1Carto.latitude, groundHeight.value));
      }
      position := pos1;
    }

    /** The grounded tail of driveTick: cancels velocity into the ground at the
        new position and blends the pre-tick up vector `upDir` toward the
        ground normal. */
    method Settle(env: Env, upDir: Vec3)
      modifies this`vel, this`orientation
      ensures var n := EstimateGroundNormal(env, position);
        var up := env.normalize(BlendUp(upDir, n, env.exp(-DT / UP_BLEND_TIME)));
        vel == CancelIntoGround(old(vel), n) &&
        orientation == Axes(old(orientation).forward, Cross(up, old(orientation).forward), up)
    {
      var forwardDir := orientation.forward;
      var groundNormal := EstimateGroundNormal(env, position);
      var speedOutOfGround := Dot(groundNormal, vel);
      if speedOutOfGround < 0.0 {
        vel := Add(vel, Scale(groundNormal, -speedOutOfGround));
      }
      var c0 := env.exp(-DT / UP_BLEND_TIME);
      var c1 := 1.0 - c0;
      var blendedUp := env.normalize(Add(Scale(upDir, c0), Scale(groundNormal, c1)));
      orientation := Axes(forwardDir, Cross(blendedUp, forwardDir), blendedUp);
    }
  }

  class Client {
    const truck: Truck
    const userId: Id
    /** INITIAL_ORIENT, the orientation given to newly mirrored projectiles. */
    const initialOrientation: Quat
    var deltaT: real
    var players: map<Id, Entity>
    var projectiles: map<Id, Entity>

    constructor (truck: Truck, userId: Id, initialOrientation: Quat)
      ensures this.truck == truck && this.userId == userId && this.initialOrientation == initialOrientation
      ensures deltaT == 0.0 && players == map[] && projectiles == map[]
    {
      this.truck := truck;
      this.userId := userId;
      this.initialOrientation := initialOrientation;
      deltaT := 0.0;
      players := map[];
      projectiles := map[];
    }

    /** frame: adds the capped elapsed time to the carry and runs one tick per
        whole interval in it, returning how many ran. */
    method Frame(env: Env, elapsed: real) returns (ticks: nat)
      modifies this`deltaT, truck
      ensures ticks == FrameTicks(old(deltaT), elapsed)
      ensures deltaT == Leftover(old(deltaT), elapsed)
      ensures truck.State() == DriveTicks(old(truck.State()), ticks, old(truck.Flags()), env, DT)
      ensures truck.Flags() == old(truck.Flags()) && truck.health == old(truck.health)
    {
      ghost var deltaT0 := deltaT;
      ghost var start := truck.State();
      ghost var flags := truck.Flags();
      deltaT := deltaT + CappedElapsed(elapsed);
      ticks := 0;
      while deltaT >= TICK_INTERVAL
        invariant deltaT == Carry(deltaT0, elapsed) - ticks as real * TICK_INTERVAL
        invariant ticks > 0 ==> deltaT >= 0.0
        invariant ticks <= FrameTicks(deltaT0, elapsed)
        invariant truck.State() == DriveTicks(start, ticks, flags, env, DT)
        invariant truck.Flags() == flags && truck.health == old(truck.health)
        decreases FrameTicks(deltaT0, elapsed) - ticks
      {
        DrainContinues(deltaT0, elapsed, ticks, deltaT);
        deltaT := deltaT - TICK_INTERVAL;
        TickOwnTruck(env, start, ticks, flags);
        ticks := ticks + 1;
      }
      DrainStops(deltaT0, elapsed, ticks, deltaT);
    }

    /** One driveTick of the client's own truck, which is also the global
        truck whose keys it reads: the `done` ticks run from `start` become
        done + 1. */
    method TickOwnTruck(env: Env, ghost start: Kinematics, ghost done: nat, ghost flags: Controls)
      requires truck.State() == DriveTicks(start, done, flags, env, DT) && truck.Flags() == flags
      modifies truck
      ensures truck.State() == DriveTicks(start, done + 1, flags, env, DT)
      ensures truck.Flags() == flags && truck.health == old(truck.health)
    {
      truck.DriveTick(env, truck);
      DriveTicksStep(start, done, flags, env, DT);
    }

    /** The keydown handler: sets the flag of W, A, S or D; space fires. */
    method KeyDown(key: int) returns (fire: bool)
      modifies truck
      ensures truck.Flags() == Pressed(old(truck.Flags()), key)
      ensures fire == FiresOnKeyDown(key)
      ensures truck.State() == old(truck.State()) && truck.health == old(truck.health)
    {
      fire := false;
      if key == KEY_W {
        truck.forward := true;
      } else if key == KEY_A {
        truck.left := true;
      } else if key == KEY_S {
        truck.backward := true;
      } else if key == KEY_D {
        truck.right := true;
      } else if key == KEY_SPACE {
        fire := true;
      }
    }

    /** The keyup handler: clears the flag of W, A, S or D. */
    method KeyUp(key: int)
      modifies truck
      ensures truck.Flags() == ReleasedKey(old(truck.Flags()), key)
      ensures truck.State() == old(truck.State()) && truck.health == old(truck.health)
    {
      if key == KEY_W {
        truck.forward := false;
      } else if key == KEY_A {
        truck.left := false;
      } else if key == KEY_S {
        truck.backward := false;
      } else if key == KEY_D {
        truck.right := false;
      }
    }

    /** The serverEmitsData handler: upserts the player mirror (taking only
        the health of the client's own entry), upserts the projectile mirror,
        then deletes the projectiles listed for removal. */
    method ServerEmitsData(serverPlayers: map<Id, PlayerState>, serverProjectiles: map<Id, ProjectileState>, toRemove: seq<Id>)
      modifies this, truck
      ensures players == MergedPlayers(old(players), serverPlayers, userId)
      ensures truck.health == OwnHealth(old(truck.health), serverPlayers, userId)
      ensures projectiles == Removed(MergedProjectiles(old(projectiles), serverProjectiles, initialOrientation), toRemove)
      ensures deltaT == old(deltaT)
      ensures truck.State() == old(truck.State()) && truck.Flags() == old(truck.Flags())
    {
      UpdatePlayers(serverPlayers);
      UpdateProjectiles(serverProjectiles);
      RemoveProjectiles(toRemove);
    }

    /** The player loop of serverEmitsData. */
    method UpdatePlayers(serverPlayers: map<Id, PlayerState>)
      modifies this`players, truck`health
      ensures players == MergedPlayers(old(players), serverPlayers, userId)
      ensures truck.health == OwnHealth(old(truck.health), serverPlayers, userId)
    {
      var pending := serverPlayers.Keys;
      while pending != {}
        invariant pending <= serverPlayers.Keys
        invariant forall id :: id in players <==>
          id in old(players) || (id in serverPlayers && id !in pending && id != userId)
        invariant forall id :: id in players ==> (players[id] ==
          if id in serverPlayers && id !in pending && id != userId
          then Entity(serverPlayers[id].pos, serverPlayers[id].orientation)
          else old(players)[id])
        invariant truck.health ==
          if userId in serverPlayers && userId !in pending then serverPlayers[userId].health else old(truck.health)
        decreases pending
      {
        HasMember(pending);
        var playerId :| playerId in pending;
        if playerId == userId {
          truck.health := serverPlayers[playerId].health;
        } else {
          // An existing entity is moved; a new one is created at the same pose.
          players := players[playerId := Entity(serverPlayers[playerId].pos, serverPlayers[playerId].orientation)];
        }
        pending := pending - {playerId};
      }
      ghost var merged := MergedPlayers(old(players), serverPlayers, userId);
      assert forall id :: id in players <==> id in merged;
      assert forall id :: id in players ==> players[id] == merged[id];
    }

    /** The projectile loop of serverEmitsData: an existing entity only moves,
        a new one gets the initial orientation. */
    method UpdateProjectiles(serverProjectiles: map<Id, ProjectileState>)
      modifies this`projectiles
      ensures projectiles == MergedProjectiles(old(projectiles), serverProjectiles, initialOrientation)
    {
      var pending := serverProjectiles.Keys;
      while pending != {}
        invariant pending <= serverProjectiles.Keys
        invariant forall id :: id in projectiles <==>
          id in old(projectiles) || (id in serverProjectiles && id !in pending)
        invariant forall id :: id in projectiles ==> (projectiles[id] ==
          if id in serverProjectiles && id !in pending
          then Entity(serverProjectiles[id].pos, if id in old(projectiles) then old(projectiles)[id].orientation else initialOrientation)
          else old(projectiles)[id])
        decreases pending
      {
        HasMember(pending);
        var projId :| projId in pending;
        if projId in projectiles {
          projectiles := projectiles[projId := projectiles[projId].(position := serverProjectiles[projId].pos)];
        } else {
          projectiles := projectiles[projId := Entity(serverProjectiles[projId].pos, initialOrientation)];
        }
        pending := pending - {projId};
      }
      ghost var merged := MergedProjectiles(old(projectiles), serverProjectiles, initialOrientation);
      assert forall id :: id in projectiles <==> id in merged;
      assert forall id :: id in projectiles ==> projectiles[id] == merged[id];
    }

    /** The removal loop of serverEmitsData: ids not in the mirror are skipped. */
    method RemoveProjectiles(toRemove: seq<Id>)
      modifies this`projectiles
      ensures projectiles == Removed(old(projectiles), toRemove)
    {
      for i := 0 to |toRemove|
        invariant projectiles == Removed(old(projectiles), toRemove[..i])
      {
        var id := toRemove[i];
        if id in projectiles {
          projectiles := projectiles - {id};
        }
        assert toRemove[..i + 1] == toRemove[..i] + [id];
      }
      assert toRemove[..|toRemove|] == toRemove;
    }
  }
}
