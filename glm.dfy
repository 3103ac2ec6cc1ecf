/** Vector values and symbolic matrix expressions standing in for GLM.
    Vectors are triples of reals; every matrix is kept as the expression that
    built it (ortho, lookAt, perspective, translate, rotate, scale, product),
    so no claim is made about trigonometry, inversion or float rounding. */
module Glm {

  datatype Vec3 = Vec3(x: real, y: real, z: real)

  /** glm::vec3(s): all three components equal to s. */
  function Splat(s: real): Vec3 { Vec3(s, s, s) }

  const Zero: Vec3 := Splat(0.0)

  function Add(a: Vec3, b: Vec3): Vec3 { Vec3(a.x + b.x, a.y + b.y, a.z + b.z) }

  function Sub(a: Vec3, b: Vec3): Vec3 { Vec3(a.x - b.x, a.y - b.y, a.z - b.z) }

  function Neg(a: Vec3): Vec3 { Vec3(-a.x, -a.y, -a.z) }

  /** Component-wise product by a scalar (`v * s` in GLM). */
  function Scale(a: Vec3, s: real): Vec3 { Vec3(a.x * s, a.y * s, a.z * s) }

  function Dot(a: Vec3, b: Vec3): real { a.x * b.x + a.y * b.y + a.z * b.z }

  /** Component-wise a <= b. */
  predicate LessEq(a: Vec3, b: Vec3) { a.x <= b.x && a.y <= b.y && a.z <= b.z }

  predicate NonNegative(a: Vec3) { LessEq(Zero, a) }

  /** Squared Euclidean length; lengths are compared through it, so no square root is needed. */
  function LengthSquared(a: Vec3): real { Dot(a, a) }

  /** glm::distance(a, b) <= r, stated without the square root: no vector lies
      within a negative distance, and otherwise the squared distance is compared
      with r * r. */
  predicate WithinDistance(a: Vec3, b: Vec3, r: real) {
    r >= 0.0 && LengthSquared(Sub(a, b)) <= r * r
  }

  /** Squaring is strictly increasing on the non-negative reals. */
  lemma SquareIncreasing(x: real, y: real)
    requires 0.0 <= x < y
    ensures x * x < y * y
  {
    var xx, xy, yy := x * x, x * y, y * y;
    assert xx <= xy;
    assert xy < yy;
  }

  /** Whatever non-negative length the square root yields for a - b, the
      predicate above holds exactly when that length is at most r. */
  lemma WithinDistanceIsLength(a: Vec3, b: Vec3, r: real, len: real)
    requires len >= 0.0 && len * len == LengthSquared(Sub(a, b))
    ensures WithinDistance(a, b, r) <==> len <= r
  {
    if r >= 0.0 {
      if len < r {
        SquareIncreasing(len, r);
      } else if r < len {
        SquareIncreasing(r, len);
      }
    }
  }

  /** glm::normalize. Its result involves a square root, so the model takes it as a
      parameter: every property proved below holds for whichever function it is. */
  type Normalizer = Vec3 -> Vec3

  /** A 4x4 matrix, kept as the GLM expression that produced it. */
  datatype Mat4 =
    | Identity
    | Ortho(left: real, right: real, bottom: real, top: real, near: real, far: real)
    | LookAt(eye: Vec3, center: Vec3, up: Vec3)
    | Perspective(fovyDegrees: real, aspect: real, near: real, far: real)
    | Translate(base: Mat4, offset: Vec3)
    | Rotate(base: Mat4, angle: real, axis: Vec3)
    | ScaleBy(base: Mat4, factors: Vec3)
    | Mul(lhs: Mat4, rhs: Mat4)

  /** A transform with its trailing rotations peeled off. */
  function Unrotated(m: Mat4): Mat4 {
    if m.Rotate? then Unrotated(m.base) else m
  }
}
