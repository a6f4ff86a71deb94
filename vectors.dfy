/** Three-component vectors over the reals: the model of Cesium's Cartesian3
    and of the handful of its operations the client uses. */
module Vectors {

  datatype Vec3 = Vec3(x: real, y: real, z: real)

  const Zero: Vec3 := Vec3(0.0, 0.0, 0.0)

  /** Cartesian3.add */
  function Add(a: Vec3, b: Vec3): Vec3 {
    Vec3(a.x + b.x, a.y + b.y, a.z + b.z)
  }

  /** Cartesian3.subtract */
  function Sub(a: Vec3, b: Vec3): Vec3 {
    Vec3(a.x - b.x, a.y - b.y, a.z - b.z)
  }

  /** Cartesian3.multiplyByScalar */
  function Scale(a: Vec3, k: real): Vec3 {
    Vec3(a.x * k, a.y * k, a.z * k)
  }

  /** Cartesian3.dot */
  function Dot(a: Vec3, b: Vec3): real {
    a.x * b.x + a.y * b.y + a.z * b.z
  }

  /** Cartesian3.cross */
  function Cross(a: Vec3, b: Vec3): Vec3 {
    Vec3(a.y * b.z - a.z * b.y, a.z * b.x - a.x * b.z, a.x * b.y - a.y * b.x)
  }

  predicate IsUnit(a: Vec3) {
    Dot(a, a) == 1.0
  }

  lemma DotSymmetric(a: Vec3, b: Vec3)
    ensures Dot(a, b) == Dot(b, a)
  {
  }

  lemma DotAdd(a: Vec3, b: Vec3, u: Vec3)
    ensures Dot(Add(a, b), u) == Dot(a, u) + Dot(b, u)
  {
  }

  lemma DotSub(a: Vec3, b: Vec3, u: Vec3)
    ensures Dot(Sub(a, b), u) == Dot(a, u) - Dot(b, u)
  {
  }

  lemma DotScale(a: Vec3, k: real, u: Vec3)
    ensures Dot(Scale(a, k), u) == k * Dot(a, u)
  {
  }

  /** The cross product is perpendicular to both of its arguments, whatever
      their lengths: this is what makes `left = up x forward` a lateral axis. */
  lemma CrossOrthogonal(a: Vec3, b: Vec3)
    ensures Dot(Cross(a, b), a) == 0.0 && Dot(Cross(a, b), b) == 0.0
  {
  }

  lemma MulNonNegative(a: real, b: real)
    requires a >= 0.0 && b >= 0.0
    ensures a * b >= 0.0
  {
  }

  lemma MulMonotone(a: real, b: real, k: real)
    requires a <= b && k >= 0.0
    ensures a * k <= b * k
  {
    MulNonNegative(b - a, k);
  }

  lemma MulPositive(a: real, b: real)
    requires a > 0.0 && b > 0.0
    ensures a * b > 0.0
  {
  }

  /** Two non-negative reals with the same square are equal. */
  lemma SquareRootUnique(x: real, y: real)
    requires x >= 0.0 && y >= 0.0 && x * x == y * y
    ensures x == y
  {
    if x < y {
      assert (y - x) * (y + x) == y * y - x * x;
      MulPositive(y - x, y + x);
      assert false;
    } else if y < x {
      assert (x - y) * (x + y) == x * x - y * y;
      MulPositive(x - y, x + y);
      assert false;
    }
  }
}
