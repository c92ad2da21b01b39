/**
 * Vectors, colours and row-major 4x4 matrices over the reals, with the
 * MV.js operations the two demos use (mat4, translate, rotateX, rotateY,
 * mult, add, subtract, scale). MV.js itself is not part of this model: the
 * definitions below state the standard matrix semantics it is assumed to
 * have. Trigonometry, the matrix product as the demos call it, `normalize`,
 * `mix` and `cross` are supplied by the caller as a `MathLib` value; `Mul`
 * is the exact product that `mult` is compared with.
 */
module Algebra {

  datatype Vec2 = Vec2(u: real, v: real)
  datatype Vec3 = Vec3(x: real, y: real, z: real)
  datatype Vec4 = Vec4(x: real, y: real, z: real, w: real)
  datatype Rgba = Rgba(r: real, g: real, b: real, a: real)

  /** A 4x4 matrix stored by rows, as MV.js stores `mat4` (m[row][col]). */
  datatype Mat4 = Mat4(r0: Vec4, r1: Vec4, r2: Vec4, r3: Vec4)

  /** The cosine and sine of one angle. */
  datatype CosSin = CosSin(cos: real, sin: real)

  /** A (cos, sin) pair of a real angle lies on the unit circle. */
  predicate OnUnitCircle(t: CosSin) {
    t.cos * t.cos + t.sin * t.sin == 1.0
  }

  /**
   * The host's floating-point library, left uninterpreted:
   *  - circle(i, n): (cos, sin) of the angle (i / n) * 2 * PI;
   *  - degrees(d): (cos, sin) of d degrees, as rotateX/rotateY compute it;
   *  - mult(a, b): MV.js's product of two matrices, computed in floating point;
   *  - normalize, mix and cross: the MV.js helpers of those names;
   *    normalize4 is normalize applied to a vec4 (all four components).
   */
  datatype MathLib = MathLib(
    circle: (nat, nat) -> CosSin,
    degrees: real -> CosSin,
    mult: (Mat4, Mat4) -> Mat4,
    normalize: Vec3 -> Vec3,
    normalize4: Vec4 -> Vec4,
    mix: (Vec4, Vec4, real) -> Vec4,
    cross: (Vec3, Vec3) -> Vec3)

  /** The library's matrix product is the exact product `Mul` below. */
  ghost predicate MultIsProduct(lib: MathLib) {
    forall a: Mat4, b: Mat4 :: lib.mult(a, b) == Mul(a, b)
  }

  /** A homogeneous point (w = 1). */
  function Point(x: real, y: real, z: real): Vec4 {
    Vec4(x, y, z, 1.0)
  }

  const Origin: Vec4 := Point(0.0, 0.0, 0.0)

  function Xyz(v: Vec4): Vec3 {
    Vec3(v.x, v.y, v.z)
  }

  function Add(a: Vec4, b: Vec4): Vec4 {
    Vec4(a.x + b.x, a.y + b.y, a.z + b.z, a.w + b.w)
  }

  function Subtract(a: Vec4, b: Vec4): Vec4 {
    Vec4(a.x - b.x, a.y - b.y, a.z - b.z, a.w - b.w)
  }

  function Scale(s: real, a: Vec4): Vec4 {
    Vec4(s * a.x, s * a.y, s * a.z, s * a.w)
  }

  function Dot(a: Vec4, b: Vec4): real {
    a.x * b.x + a.y * b.y + a.z * b.z + a.w * b.w
  }

  function Col(m: Mat4, c: nat): Vec4
    requires c < 4
  {
    match c
    case 0 => Vec4(m.r0.x, m.r1.x, m.r2.x, m.r3.x)
    case 1 => Vec4(m.r0.y, m.r1.y, m.r2.y, m.r3.y)
    case 2 => Vec4(m.r0.z, m.r1.z, m.r2.z, m.r3.z)
    case 3 => Vec4(m.r0.w, m.r1.w, m.r2.w, m.r3.w)
  }

  function RowTimes(r: Vec4, b: Mat4): Vec4 {
    Vec4(Dot(r, Col(b, 0)), Dot(r, Col(b, 1)), Dot(r, Col(b, 2)), Dot(r, Col(b, 3)))
  }

  /** `mult(a, b)` on two matrices. */
  function Mul(a: Mat4, b: Mat4): Mat4 {
    Mat4(RowTimes(a.r0, b), RowTimes(a.r1, b), RowTimes(a.r2, b), RowTimes(a.r3, b))
  }

  /** `mult(m, v)` on a matrix and a vec4. */
  function Apply(m: Mat4, v: Vec4): Vec4 {
    Vec4(Dot(m.r0, v), Dot(m.r1, v), Dot(m.r2, v), Dot(m.r3, v))
  }

  /** The normal matrix of the door builders: the upper-left 3x3 block of `m` applied to `n`. */
  function ApplyUpper3(m: Mat4, n: Vec3): Vec3 {
    Vec3(m.r0.x * n.x + m.r0.y * n.y + m.r0.z * n.z,
         m.r1.x * n.x + m.r1.y * n.y + m.r1.z * n.z,
         m.r2.x * n.x + m.r2.y * n.y + m.r2.z * n.z)
  }

  /** `mat4()` */
  function Identity(): Mat4 {
    Mat4(Vec4(1.0, 0.0, 0.0, 0.0), Vec4(0.0, 1.0, 0.0, 0.0),
         Vec4(0.0, 0.0, 1.0, 0.0), Vec4(0.0, 0.0, 0.0, 1.0))
  }

  /** `translate(x, y, z)` */
  function Translate(x: real, y: real, z: real): Mat4 {
    Mat4(Vec4(1.0, 0.0, 0.0, x), Vec4(0.0, 1.0, 0.0, y),
         Vec4(0.0, 0.0, 1.0, z), Vec4(0.0, 0.0, 0.0, 1.0))
  }

  /** `rotateX(theta)` with t = (cos theta, sin theta). */
  function RotateX(t: CosSin): Mat4 {
    Mat4(Vec4(1.0, 0.0, 0.0, 0.0), Vec4(0.0, t.cos, -t.sin, 0.0),
         Vec4(0.0, t.sin, t.cos, 0.0), Vec4(0.0, 0.0, 0.0, 1.0))
  }

  /** `rotateY(theta)` with t = (cos theta, sin theta). */
  function RotateY(t: CosSin): Mat4 {
    Mat4(Vec4(t.cos, 0.0, t.sin, 0.0), Vec4(0.0, 1.0, 0.0, 0.0),
         Vec4(-t.sin, 0.0, t.cos, 0.0), Vec4(0.0, 0.0, 0.0, 1.0))
  }

  /** Two matrices with the same upper-left 3x3 block. */
  predicate SameLinearPart(a: Mat4, b: Mat4) {
    && a.r0.x == b.r0.x && a.r0.y == b.r0.y && a.r0.z == b.r0.z
    && a.r1.x == b.r1.x && a.r1.y == b.r1.y && a.r1.z == b.r1.z
    && a.r2.x == b.r2.x && a.r2.y == b.r2.y && a.r2.z == b.r2.z
  }

  /** Applying a product is applying its factors in turn. */
  lemma ApplyMul(a: Mat4, b: Mat4, v: Vec4)
    ensures Apply(Mul(a, b), v) == Apply(a, Apply(b, v))
  {
    RowTimesDot(a.r0, b, v);
    RowTimesDot(a.r1, b, v);
    RowTimesDot(a.r2, b, v);
    RowTimesDot(a.r3, b, v);
  }

  lemma RowTimesDot(r: Vec4, b: Mat4, v: Vec4)
    ensures Dot(RowTimes(r, b), v) == Dot(r, Apply(b, v))
  {
    // Both sides are the sum over i, j of r_i * b_ij * v_j.
    DotRowTimesExpanded(r, b, v);
    DotApplyExpanded(r, b, v);
    DotExpand(r.x, r.y, r.z, r.w,
              b.r0.x, b.r0.y, b.r0.z, b.r0.w, b.r1.x, b.r1.y, b.r1.z, b.r1.w,
              b.r2.x, b.r2.y, b.r2.z, b.r2.w, b.r3.x, b.r3.y, b.r3.z, b.r3.w,
              v.x, v.y, v.z, v.w);
  }

  /** The left side of `RowTimesDot`, written out entry by entry. */
  lemma DotRowTimesExpanded(r: Vec4, b: Mat4, v: Vec4)
    ensures Dot(RowTimes(r, b), v)
         == (r.x * b.r0.x + r.y * b.r1.x + r.z * b.r2.x + r.w * b.r3.x) * v.x
          + (r.x * b.r0.y + r.y * b.r1.y + r.z * b.r2.y + r.w * b.r3.y) * v.y
          + (r.x * b.r0.z + r.y * b.r1.z + r.z * b.r2.z + r.w * b.r3.z) * v.z
          + (r.x * b.r0.w + r.y * b.r1.w + r.z * b.r2.w + r.w * b.r3.w) * v.w
  {
  }

  /** The right side of `RowTimesDot`, written out entry by entry. */
  lemma DotApplyExpanded(r: Vec4, b: Mat4, v: Vec4)
    ensures Dot(r, Apply(b, v))
         == r.x * (b.r0.x * v.x + b.r0.y * v.y + b.r0.z * v.z + b.r0.w * v.w)
          + r.y * (b.r1.x * v.x + b.r1.y * v.y + b.r1.z * v.z + b.r1.w * v.w)
          + r.z * (b.r2.x * v.x + b.r2.y * v.y + b.r2.z * v.z + b.r2.w * v.w)
          + r.w * (b.r3.x * v.x + b.r3.y * v.y + b.r3.z * v.z + b.r3.w * v.w)
  {
  }

  /** The row-times-matrix-times-vector sum, regrouped by row entry. */
  lemma DotExpand(r0: real, r1: real, r2: real, r3: real,
                  b00: real, b01: real, b02: real, b03: real,
                  b10: real, b11: real, b12: real, b13: real,
                  b20: real, b21: real, b22: real, b23: real,
                  b30: real, b31: real, b32: real, b33: real,
                  v0: real, v1: real, v2: real, v3: real)
    ensures (r0 * b00 + r1 * b10 + r2 * b20 + r3 * b30) * v0 + (r0 * b01 + r1 * b11 + r2 * b21 + r3 * b31) * v1
          + (r0 * b02 + r1 * b12 + r2 * b22 + r3 * b32) * v2 + (r0 * b03 + r1 * b13 + r2 * b23 + r3 * b33) * v3
         == r0 * (b00 * v0 + b01 * v1 + b02 * v2 + b03 * v3) + r1 * (b10 * v0 + b11 * v1 + b12 * v2 + b13 * v3)
          + r2 * (b20 * v0 + b21 * v1 + b22 * v2 + b23 * v3) + r3 * (b30 * v0 + b31 * v1 + b32 * v2 + b33 * v3)
  {
  }

  /** Right-multiplying by a translation leaves the linear part alone. */
  lemma MulTranslateLinearPart(m: Mat4, x: real, y: real, z: real)
    ensures SameLinearPart(Mul(m, Translate(x, y, z)), m)
  {
  }

  /** Only the linear part of a matrix reaches a transformed normal. */
  lemma ApplyUpper3OnlyLinear(a: Mat4, b: Mat4, n: Vec3)
    requires SameLinearPart(a, b)
    ensures ApplyUpper3(a, n) == ApplyUpper3(b, n)
  {
  }

  /**
   * `Math.max(lo, Math.min(hi, v))`, and the two `if`s of the door's
   * handlers: the value kept within [lo, hi].
   */
  function Clamp(v: real, lo: real, hi: real): (r: real)
    requires lo <= hi
    ensures lo <= r <= hi
    ensures lo <= v <= hi ==> r == v
    ensures v < lo ==> r == lo
    ensures v > hi ==> r == hi
  {
    if v < lo then lo else if v > hi then hi else v
  }
}
