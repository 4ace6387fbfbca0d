/**
  The slice of GLM (and of the C maths library) that the camera uses.

  Vector arithmetic is polynomial and is defined exactly. The transcendental
  routines (sin, cos, the inverse square root behind glm::normalize) and
  glm::lookAt are foreign code: they are the fields of a MathLib value, and the
  few facts the camera relies on are collected in the predicate Sound.
  Single-precision rounding is not modelled: every scalar is a real.
 */
module Glm {

  datatype Vec3 = Vec3(x: real, y: real, z: real)

  const Zero: Vec3 := Vec3(0.0, 0.0, 0.0)

  function Add(a: Vec3, b: Vec3): Vec3 { Vec3(a.x + b.x, a.y + b.y, a.z + b.z) }

  function Sub(a: Vec3, b: Vec3): Vec3 { Vec3(a.x - b.x, a.y - b.y, a.z - b.z) }

  function Scale(a: Vec3, k: real): Vec3 { Vec3(a.x * k, a.y * k, a.z * k) }

  function Dot(a: Vec3, b: Vec3): real { a.x * b.x + a.y * b.y + a.z * b.z }

  function Cross(a: Vec3, b: Vec3): Vec3
  {
    Vec3(a.y * b.z - a.z * b.y, a.z * b.x - a.x * b.z, a.x * b.y - a.y * b.x)
  }

  /** A 4x4 matrix as GLM stores it (four columns); the camera only produces it. */
  datatype Mat4 = Mat4(columns: seq<seq<real>>)

  /** The foreign routines, passed in rather than defined. */
  datatype MathLib = MathLib(
    sin: real -> real,
    cos: real -> real,
    inverseSqrt: real -> real,
    lookAt: (Vec3, Vec3, Vec3) -> Mat4)

  /** glm::radians multiplies by this constant. */
  const DegreesToRadians: real := 0.01745329251994329576923690768489

  /** A bound just below pi/2, on which cosine is positive. */
  const BelowQuarterTurn: real := 1.57

  function Radians(degrees: real): real { degrees * DegreesToRadians }

  /**
    The facts about the foreign routines that the proofs use; each holds of the
    real functions. The one about inversesqrt is stated at the squared length of
    a vector other than zero, which is where glm::normalize applies it.
   */
  ghost predicate Sound(lib: MathLib)
  {
    && (forall t :: lib.sin(t) * lib.sin(t) + lib.cos(t) * lib.cos(t) == 1.0)
    && (forall t :: -BelowQuarterTurn <= t <= BelowQuarterTurn ==> 0.0 < lib.cos(t))
    && lib.sin(0.0) == 0.0
    && (forall v: Vec3 :: v != Zero ==>
          && 0.0 < lib.inverseSqrt(Dot(v, v))
          && lib.inverseSqrt(Dot(v, v)) * lib.inverseSqrt(Dot(v, v)) * Dot(v, v) == 1.0)
  }

  /**
    glm::normalize: v scaled by the inverse square root of its squared length.
    For the zero vector GLM yields NaN components; here the result is the zero vector.
   */
  function Normalize(lib: MathLib, v: Vec3): (n: Vec3)
    ensures v.y == 0.0 ==> n.y == 0.0
    ensures v.x == 0.0 && v.z == 0.0 ==> n.x == 0.0 && n.z == 0.0
  {
    Scale(v, lib.inverseSqrt(Dot(v, v)))
  }

  lemma DotScaleSelf(v: Vec3, k: real)
    ensures Dot(Scale(v, k), Scale(v, k)) == k * k * Dot(v, v)
  {
  }

  lemma DotScale(a: Vec3, b: Vec3, j: real, k: real)
    ensures Dot(Scale(a, j), Scale(b, k)) == j * k * Dot(a, b)
  {
  }

  lemma DotAddSelf(a: Vec3, b: Vec3)
    ensures Dot(Add(a, b), Add(a, b)) == Dot(a, a) + 2.0 * Dot(a, b) + Dot(b, b)
  {
  }

  /** Two perpendicular unit steps of length c add up to a squared length of 2 c c. */
  lemma SumOfPerpendicularUnits(u: Vec3, v: Vec3, c: real)
    requires Dot(u, u) == 1.0 && Dot(v, v) == 1.0 && Dot(u, v) == 0.0
    ensures Dot(Add(Scale(u, c), Scale(v, c)), Add(Scale(u, c), Scale(v, c))) == 2.0 * c * c
  {
    DotAddSelf(Scale(u, c), Scale(v, c));
    DotScaleSelf(u, c);
    DotScaleSelf(v, c);
    DotScale(u, v, c, c);
  }

  /** Normalizing a vector other than zero yields a unit vector pointing the same way. */
  lemma NormalizeIsUnit(lib: MathLib, v: Vec3)
    requires Sound(lib) && v != Zero
    ensures Dot(Normalize(lib, v), Normalize(lib, v)) == 1.0
    ensures 0.0 < lib.inverseSqrt(Dot(v, v)) && Normalize(lib, v) == Scale(v, lib.inverseSqrt(Dot(v, v)))
  {
    var k := lib.inverseSqrt(Dot(v, v));
    assert 0.0 < k && k * k * Dot(v, v) == 1.0;
    DotScaleSelf(v, k);
  }

  /** A unit vector along an axis is left unchanged by normalization. */
  lemma NormalizeUnitX(lib: MathLib)
    requires Sound(lib)
    ensures Normalize(lib, Vec3(1.0, 0.0, 0.0)) == Vec3(1.0, 0.0, 0.0)
  {
    var e := Vec3(1.0, 0.0, 0.0);
    NormalizeIsUnit(lib, e);
    var k := lib.inverseSqrt(Dot(e, e));
    var n := Normalize(lib, e);
    assert n == Vec3(k, 0.0, 0.0);
    assert k * k == 1.0;
    PositiveUnitRoot(k);
  }

  /** A positive number whose square is 1 is 1. */
  lemma PositiveUnitRoot(k: real)
    requires 0.0 < k && k * k == 1.0
    ensures k == 1.0
  {
    if k != 1.0 {
      MulNonZero(k - 1.0, k + 1.0);
    }
  }

  lemma MulNonZero(a: real, b: real)
    requires a != 0.0 && b != 0.0
    ensures a * b != 0.0
  {
  }

  lemma MulPositive(a: real, b: real)
    requires 0.0 < a && 0.0 < b
    ensures 0.0 < a * b
  {
  }

  lemma MulMonotone(a: real, b: real, c: real)
    requires a <= b && 0.0 < c
    ensures a * c <= b * c
  {
  }
}
