/** What the client asks of Cesium's globe and math library. None of these
    is code of the client: each is a total function handed to the model, and
    the properties the model relies on are stated as predicates over them. */
module Globe {
  import opened Wrappers
  import opened Vectors

  /** Cesium.Cartographic: longitude and latitude in radians, height above the ellipsoid. */
  datatype Carto = Carto(longitude: real, latitude: real, height: real)

  /** The columns of Transforms.eastNorthUpToFixedFrame at a point. */
  datatype Enu = Enu(east: Vec3, north: Vec3, up: Vec3)

  /** The library and terrain calls of one tick. */
  datatype Env = Env(
    toCarto: Vec3 -> Carto,                  // Cartographic.fromCartesian
    fromCarto: Carto -> Vec3,                // Cartesian3.fromRadians
    terrainHeight: (real, real) -> Option<real>,  // globe.getHeight; None for undefined or NaN
    magnitude: Vec3 -> real,                 // Cartesian3.magnitude
    normalize: Vec3 -> Vec3,                 // Cartesian3.normalize
    rotate: (Vec3, Vec3, real) -> Vec3,      // quaternion rotation of a vector about an axis
    exp: real -> real,                       // Math.exp
    surfaceNormal: Vec3 -> Vec3,             // ellipsoid.geodeticSurfaceNormal
    enuFrame: Vec3 -> Enu                    // Transforms.eastNorthUpToFixedFrame
  )

  /** globe.getHeight reads only the longitude and latitude of its argument. */
  function GroundAt(env: Env, c: Carto): Option<real> {
    env.terrainHeight(c.longitude, c.latitude)
  }

  /** fromRadians followed by fromCartesian gives back the cartographic point,
      for every point fromCartesian produced with its height replaced; longitudes
      outside the normalised range are not covered, since Cesium wraps them. */
  ghost predicate CartoRoundTrip(env: Env) {
    forall p: Vec3, h: real ::
      env.toCarto(env.fromCarto(env.toCarto(p).(height := h))) == env.toCarto(p).(height := h)
  }

  /** normalize returns a unit vector for every non-zero argument. */
  ghost predicate NormalizesToUnit(env: Env) {
    forall v: Vec3 :: v != Zero ==> IsUnit(env.normalize(v))
  }

  /** magnitude returns the Euclidean length: never negative, and its square
      is the vector's dot product with itself. */
  ghost predicate MeasuresLength(env: Env) {
    forall v: Vec3 :: env.magnitude(v) >= 0.0 && env.magnitude(v) * env.magnitude(v) == Dot(v, v)
  }

  /** An east/north/up frame whose three columns are orthonormal. */
  ghost predicate Orthonormal(f: Enu) {
    && IsUnit(f.east) && IsUnit(f.north) && IsUnit(f.up)
    && Dot(f.east, f.north) == 0.0 && Dot(f.east, f.up) == 0.0 && Dot(f.north, f.up) == 0.0
  }
}
