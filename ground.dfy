/** Ground contact: the airborne test, the clamp onto the terrain, the
    cancelling of velocity into the ground and the estimate of the ground
    normal from four height samples. */
module Ground {
  import opened Wrappers
  import opened Vectors
  import opened Globe

  /** How far above the terrain the truck may be and still count as grounded. */
  const AIRBORNE_GAP: real := 0.3

  /** Time constant of the blend of the up vector toward the ground normal. */
  const UP_BLEND_TIME: real := 0.25

  /** The airborne test. An unknown terrain height makes the JavaScript
      comparison `height - undefined > 0.3` false, so the truck counts as
      grounded. */
  function IsAirborne(height: real, ground: Option<real>): (b: bool)
    ensures b <==> ground.Some? && height - ground.value > AIRBORNE_GAP
    ensures ground.None? ==> !b
  {
    match ground
    case None => false
    case Some(g) => height - g > AIRBORNE_GAP
  }

  /** The airborne test is monotone: over the same known ground a higher
      truck, and at the same height a lower known ground, is airborne whenever
      the original was. */
  lemma AirborneKeptHigher(h1: real, h2: real, g1: real, g2: real)
    requires h1 <= h2 && g2 <= g1
    ensures IsAirborne(h1, Some(g1)) ==> IsAirborne(h2, Some(g1))
    ensures IsAirborne(h1, Some(g1)) ==> IsAirborne(h1, Some(g2))
  {
  }

  /** A point is under the terrain when the terrain height there is known and above it. */
  predicate BelowGround(c: Carto, ground: Option<real>) {
    ground.Some? && c.height < ground.value
  }

  /** Lifts a point under the terrain onto it, keeping longitude and latitude. */
  function ClampToGround(c: Carto, ground: Option<real>): (r: Carto)
    ensures r.longitude == c.longitude && r.latitude == c.latitude
    ensures BelowGround(c, ground) ==> r.height == ground.value
    ensures !BelowGround(c, ground) ==> r == c
    ensures ground.Some? ==> r.height >= ground.value
  {
    if BelowGround(c, ground) then c.(height := ground.value) else c
  }

  /** A clamped point is no longer under the terrain, so a second clamp changes nothing. */
  lemma ClampIdempotent(c: Carto, ground: Option<real>)
    ensures !BelowGround(ClampToGround(c, ground), ground)
    ensures ClampToGround(ClampToGround(c, ground), ground) == ClampToGround(c, ground)
  {
  }

  /** Adds back the component of the velocity that points into the ground,
      along the ground normal `n`. */
  function CancelIntoGround(vel: Vec3, n: Vec3): Vec3 {
    var speedOutOfGround := Dot(n, vel);
    if speedOutOfGround < 0.0 then Add(vel, Scale(n, -speedOutOfGround)) else vel
  }

  /** With a unit normal, the velocity after cancelling has no component into
      the ground: that component becomes exactly 0 when it was negative and is
      kept otherwise, and every component along the ground plane is kept. */
  lemma CancelLeavesNothingIntoGround(vel: Vec3, n: Vec3)
    requires IsUnit(n)
    ensures Dot(n, vel) < 0.0 ==> Dot(n, CancelIntoGround(vel, n)) == 0.0
    ensures Dot(n, vel) >= 0.0 ==> CancelIntoGround(vel, n) == vel
    ensures Dot(n, CancelIntoGround(vel, n)) >= 0.0
    ensures forall u: Vec3 {:trigger Dot(u, n)} :: Dot(u, n) == 0.0 ==> Dot(CancelIntoGround(vel, n), u) == Dot(vel, u)
  {
    var s := Dot(n, vel);
    if s < 0.0 {
      DotAdd(vel, Scale(n, -s), n);
      DotScale(n, -s, n);
      DotSymmetric(n, vel);
      DotSymmetric(n, CancelIntoGround(vel, n));
      forall u: Vec3 | Dot(u, n) == 0.0
        ensures Dot(CancelIntoGround(vel, n), u) == Dot(vel, u)
      {
        DotAdd(vel, Scale(n, -s), u);
        DotScale(n, -s, u);
        DotSymmetric(u, n);
      }
    }
  }

  /** Cancelling twice is cancelling once. */
  lemma CancelIdempotent(vel: Vec3, n: Vec3)
    requires IsUnit(n)
    ensures CancelIntoGround(CancelIntoGround(vel, n), n) == CancelIntoGround(vel, n)
  {
    CancelLeavesNothingIntoGround(vel, n);
  }

  /** The local-frame normal from heights sampled one unit east (h0), west
      (h1), north (h2) and south (h3) of the point. */
  function LocalNormal(h0: real, h1: real, h2: real, h3: real): Vec3 {
    Vec3(h1 - h0, h3 - h2, 2.0)
  }

  /** On a plane h(e, n) = c + a*e + b*n the local normal is perpendicular to
      the plane's two tangent directions, points upward, and is never zero;
      flat ground gives a vector straight up. */
  lemma LocalNormalOfPlane(c: real, a: real, b: real)
    ensures var n := LocalNormal(c + a, c - a, c + b, c - b);
      && Dot(n, Vec3(1.0, 0.0, a)) == 0.0
      && Dot(n, Vec3(0.0, 1.0, b)) == 0.0
      && n.z > 0.0 && n != Zero
    ensures LocalNormal(c, c, c, c) == Vec3(0.0, 0.0, 2.0)
  {
  }

  /** Matrix4.multiplyByPointAsVector with the east/north/up frame. */
  function LocalToWorld(f: Enu, v: Vec3): Vec3 {
    Add(Add(Scale(f.east, v.x), Scale(f.north, v.y)), Scale(f.up, v.z))
  }

  /** estimateGroundNormal: the heights are the ellipsoidal heights of the four
      offset points (Cartographic.fromCartesian), not terrain heights. */
  function EstimateGroundNormal(env: Env, pos: Vec3): Vec3 {
    var f := env.enuFrame(pos);
    var h0 := env.toCarto(Add(pos, f.east)).height;
    var h1 := env.toCarto(Sub(pos, f.east)).height;
    var h2 := env.toCarto(Add(pos, f.north)).height;
    var h3 := env.toCarto(Sub(pos, f.north)).height;
    LocalToWorld(f, env.normalize(LocalNormal(h0, h1, h2, h3)))
  }

  /** An orthonormal frame carries a unit vector to a unit vector. */
  lemma LocalToWorldKeepsUnit(f: Enu, v: Vec3)
    requires Orthonormal(f) && IsUnit(v)
    ensures IsUnit(LocalToWorld(f, v))
  {
    var a := Scale(f.east, v.x);
    var b := Scale(f.north, v.y);
    var c := Scale(f.up, v.z);
    var w := LocalToWorld(f, v);
    DotScale(f.east, v.x, w);
    DotScale(f.north, v.y, w);
    DotScale(f.up, v.z, w);
    DotAdd(Add(a, b), c, w);
    DotAdd(a, b, w);
    assert Dot(w, w) == v.x * Dot(f.east, w) + v.y * Dot(f.north, w) + v.z * Dot(f.up, w);
    EastDot(f, v);
    NorthDot(f, v);
    UpDot(f, v);
  }

  lemma EastDot(f: Enu, v: Vec3)
    requires Orthonormal(f)
    ensures Dot(f.east, LocalToWorld(f, v)) == v.x
  {
    var a := Scale(f.east, v.x);
    var b := Scale(f.north, v.y);
    var c := Scale(f.up, v.z);
    DotSymmetric(f.east, LocalToWorld(f, v));
    DotAdd(Add(a, b), c, f.east);
    DotAdd(a, b, f.east);
    DotScale(f.east, v.x, f.east);
    DotScale(f.north, v.y, f.east);
    DotScale(f.up, v.z, f.east);
    DotSymmetric(f.north, f.east);
    DotSymmetric(f.up, f.east);
  }

  lemma NorthDot(f: Enu, v: Vec3)
    requires Orthonormal(f)
    ensures Dot(f.north, LocalToWorld(f, v)) == v.y
  {
    var a := Scale(f.east, v.x);
    var b := Scale(f.north, v.y);
    var c := Scale(f.up, v.z);
    DotSymmetric(f.north, LocalToWorld(f, v));
    DotAdd(Add(a, b), c, f.north);
    DotAdd(a, b, f.north);
    DotScale(f.east, v.x, f.north);
    DotScale(f.north, v.y, f.north);
    DotScale(f.up, v.z, f.north);
    DotSymmetric(f.up, f.north);
  }

  lemma UpDot(f: Enu, v: Vec3)
    requires Orthonormal(f)
    ensures Dot(f.up, LocalToWorld(f, v)) == v.z
  {
    var a := Scale(f.east, v.x);
    var b := Scale(f.north, v.y);
    var c := Scale(f.up, v.z);
    DotSymmetric(f.up, LocalToWorld(f, v));
    DotAdd(Add(a, b), c, f.up);
    DotAdd(a, b, f.up);
    DotScale(f.east, v.x, f.up);
    DotScale(f.north, v.y, f.up);
    DotScale(f.up, v.z, f.up);
  }

  /** When normalize yields unit vectors and the east/north/up frame is
      orthonormal, the estimated ground normal is a unit vector. */
  lemma GroundNormalIsUnit(env: Env, pos: Vec3)
    requires NormalizesToUnit(env) && Orthonormal(env.enuFrame(pos))
    ensures IsUnit(EstimateGroundNormal(env, pos))
  {
    var f := env.enuFrame(pos);
    var n := LocalNormal(env.toCarto(Add(pos, f.east)).height, env.toCarto(Sub(pos, f.east)).height,
                         env.toCarto(Add(pos, f.north)).height, env.toCarto(Sub(pos, f.north)).height);
    assert n != Zero;
    LocalToWorldKeepsUnit(f, env.normalize(n));
  }

  /** The up vector before normalization: decay parts of the old up plus
      (1 - decay) parts of the ground normal. */
  function BlendUp(up: Vec3, groundNormal: Vec3, decay: real): Vec3 {
    Add(Scale(up, decay), Scale(groundNormal, 1.0 - decay))
  }

  /** An up vector that already matches the ground normal is left where it is,
      whatever the decay factor. */
  lemma BlendUpFixesGroundNormal(n: Vec3, decay: real)
    ensures BlendUp(n, n, decay) == n
  {
  }
}
