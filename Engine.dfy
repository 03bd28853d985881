/** What the shadow-hiding component takes from the game engine, reduced to
    the values it reads and to operations handed in as functions: the
    matrix arithmetic and the ray cast are the engine's, not the
    component's. An exact model of the matrix arithmetic shows when the law
    the incremental update relies on holds. */
module Engine {
  import opened Geometry

  /** A rotation. The component only stores one and compares it with the
      current one. */
  datatype Quaternion = Quaternion(x: real, y: real, z: real, w: real)

  /** A 4x4 matrix with Unity's entry names: `mRC` is the entry in row R
      and column C. The component never looks inside one: it multiplies,
      inverts and applies them through MatrixOps. */
  datatype Matrix4x4 = Matrix4x4(
    m00: real, m01: real, m02: real, m03: real,
    m10: real, m11: real, m12: real, m13: real,
    m20: real, m21: real, m22: real, m23: real,
    m30: real, m31: real, m32: real, m33: real)

  /** The engine's matrix operations: the product of two matrices, the
      inverse of one, and the affine transform of a point by one. */
  datatype MatrixOps = MatrixOps(
    multiply: (Matrix4x4, Matrix4x4) -> Matrix4x4,
    inverse: Matrix4x4 -> Matrix4x4,
    multiplyPoint3x4: (Matrix4x4, Vector3) -> Vector3)

  /** Transforming by the product `a * b` is transforming by `b` and then
      by `a`. The point transform reads only the top three rows of a matrix,
      so this holds when `b` is affine (bottom row 0, 0, 0, 1) but not for
      every pair of matrices: it is stated for one product at a time. */
  ghost predicate AppliesAsProduct(ops: MatrixOps, a: Matrix4x4, b: Matrix4x4)
  {
    forall v :: ops.multiplyPoint3x4(ops.multiply(a, b), v)
                == ops.multiplyPoint3x4(a, ops.multiplyPoint3x4(b, v))
  }

  /** The inverse of `m` undoes the transform by `m`. This holds only when
      `m` is invertible, that is for an object of non-zero scale; a singular
      matrix maps distinct points to one, and nothing can undo that. */
  ghost predicate InvertedBy(ops: MatrixOps, m: Matrix4x4)
  {
    forall v :: ops.multiplyPoint3x4(ops.inverse(m), ops.multiplyPoint3x4(m, v)) == v
  }

  /** Exact arithmetic on 4x4 matrices, as Unity defines it: the product,
      and the point transform, which uses the top three rows only and treats
      the point as (x, y, z, 1). It shows that the hypotheses of the
      incremental update can be met. */
  function ExactMultiply(a: Matrix4x4, b: Matrix4x4): Matrix4x4
  {
    Matrix4x4(
      a.m00 * b.m00 + a.m01 * b.m10 + a.m02 * b.m20 + a.m03 * b.m30,
      a.m00 * b.m01 + a.m01 * b.m11 + a.m02 * b.m21 + a.m03 * b.m31,
      a.m00 * b.m02 + a.m01 * b.m12 + a.m02 * b.m22 + a.m03 * b.m32,
      a.m00 * b.m03 + a.m01 * b.m13 + a.m02 * b.m23 + a.m03 * b.m33,
      a.m10 * b.m00 + a.m11 * b.m10 + a.m12 * b.m20 + a.m13 * b.m30,
      a.m10 * b.m01 + a.m11 * b.m11 + a.m12 * b.m21 + a.m13 * b.m31,
      a.m10 * b.m02 + a.m11 * b.m12 + a.m12 * b.m22 + a.m13 * b.m32,
      a.m10 * b.m03 + a.m11 * b.m13 + a.m12 * b.m23 + a.m13 * b.m33,
      a.m20 * b.m00 + a.m21 * b.m10 + a.m22 * b.m20 + a.m23 * b.m30,
      a.m20 * b.m01 + a.m21 * b.m11 + a.m22 * b.m21 + a.m23 * b.m31,
      a.m20 * b.m02 + a.m21 * b.m12 + a.m22 * b.m22 + a.m23 * b.m32,
      a.m20 * b.m03 + a.m21 * b.m13 + a.m22 * b.m23 + a.m23 * b.m33,
      a.m30 * b.m00 + a.m31 * b.m10 + a.m32 * b.m20 + a.m33 * b.m30,
      a.m30 * b.m01 + a.m31 * b.m11 + a.m32 * b.m21 + a.m33 * b.m31,
      a.m30 * b.m02 + a.m31 * b.m12 + a.m32 * b.m22 + a.m33 * b.m32,
      a.m30 * b.m03 + a.m31 * b.m13 + a.m32 * b.m23 + a.m33 * b.m33)
  }

  function ExactMultiplyPoint3x4(m: Matrix4x4, v: Vector3): Vector3
  {
    Vector3(m.m00 * v.x + m.m01 * v.y + m.m02 * v.z + m.m03,
            m.m10 * v.x + m.m11 * v.y + m.m12 * v.z + m.m13,
            m.m20 * v.x + m.m21 * v.y + m.m22 * v.z + m.m23)
  }

  /** The bottom row is 0, 0, 0, 1, as in every transform of an object. */
  predicate Affine(m: Matrix4x4)
  {
    m.m30 == 0.0 && m.m31 == 0.0 && m.m32 == 0.0 && m.m33 == 1.0
  }

  /** With exact arithmetic, a product whose second factor is affine
      transforms points as its two factors in turn, whatever the inverse. */
  lemma ExactProductApplies(a: Matrix4x4, b: Matrix4x4, inverse: Matrix4x4 -> Matrix4x4)
    requires Affine(b)
    ensures AppliesAsProduct(MatrixOps(ExactMultiply, inverse, ExactMultiplyPoint3x4), a, b)
  {
    forall v
      ensures ExactMultiplyPoint3x4(ExactMultiply(a, b), v)
              == ExactMultiplyPoint3x4(a, ExactMultiplyPoint3x4(b, v))
    {
      ProductAppliesX(a, b, v);
      ProductAppliesY(a, b, v);
      ProductAppliesZ(a, b, v);
    }
  }

  /** The x, y and z coordinates of the law, one at a time. */
  lemma ProductAppliesX(a: Matrix4x4, b: Matrix4x4, v: Vector3)
    requires Affine(b)
    ensures ExactMultiplyPoint3x4(ExactMultiply(a, b), v).x
            == ExactMultiplyPoint3x4(a, ExactMultiplyPoint3x4(b, v)).x
  {
    var p, w := ExactMultiply(a, b), ExactMultiplyPoint3x4(b, v);
    RowOfProduct(a.m00, a.m01, a.m02, a.m03, p.m00, p.m01, p.m02, p.m03, w.x, w.y, w.z, b, v);
  }

  lemma ProductAppliesY(a: Matrix4x4, b: Matrix4x4, v: Vector3)
    requires Affine(b)
    ensures ExactMultiplyPoint3x4(ExactMultiply(a, b), v).y
            == ExactMultiplyPoint3x4(a, ExactMultiplyPoint3x4(b, v)).y
  {
    var p, w := ExactMultiply(a, b), ExactMultiplyPoint3x4(b, v);
    RowOfProduct(a.m10, a.m11, a.m12, a.m13, p.m10, p.m11, p.m12, p.m13, w.x, w.y, w.z, b, v);
  }

  lemma ProductAppliesZ(a: Matrix4x4, b: Matrix4x4, v: Vector3)
    requires Affine(b)
    ensures ExactMultiplyPoint3x4(ExactMultiply(a, b), v).z
            == ExactMultiplyPoint3x4(a, ExactMultiplyPoint3x4(b, v)).z
  {
    var p, w := ExactMultiply(a, b), ExactMultiplyPoint3x4(b, v);
    RowOfProduct(a.m20, a.m21, a.m22, a.m23, p.m20, p.m21, p.m22, p.m23, w.x, w.y, w.z, b, v);
  }

  /** A row (r0, r1, r2, r3) of `a` times the affine `b` gives the row
      (c0, c1, c2, c3) of the product; applied to a point, it gives the row
      of `a` applied to (wx, wy, wz), the transform of the point by `b`. */
  lemma RowOfProduct(r0: real, r1: real, r2: real, r3: real,
                     c0: real, c1: real, c2: real, c3: real,
                     wx: real, wy: real, wz: real, b: Matrix4x4, v: Vector3)
    requires Affine(b)
    requires c0 == r0 * b.m00 + r1 * b.m10 + r2 * b.m20 + r3 * b.m30
    requires c1 == r0 * b.m01 + r1 * b.m11 + r2 * b.m21 + r3 * b.m31
    requires c2 == r0 * b.m02 + r1 * b.m12 + r2 * b.m22 + r3 * b.m32
    requires c3 == r0 * b.m03 + r1 * b.m13 + r2 * b.m23 + r3 * b.m33
    requires wx == b.m00 * v.x + b.m01 * v.y + b.m02 * v.z + b.m03
    requires wy == b.m10 * v.x + b.m11 * v.y + b.m12 * v.z + b.m13
    requires wz == b.m20 * v.x + b.m21 * v.y + b.m22 * v.z + b.m23
    ensures c0 * v.x + c1 * v.y + c2 * v.z + c3 == r0 * wx + r1 * wy + r2 * wz + r3
  {
  }

  /** Without the affine bottom row the law fails: the translation by
      (1, 0, 0) times the identity with 2 in its last entry sends the origin
      to (2, 0, 0), while the two factors in turn send it to (1, 0, 0). */
  lemma NonAffineProductFails(inverse: Matrix4x4 -> Matrix4x4)
    ensures var a := Matrix4x4(1.0, 0.0, 0.0, 1.0, 0.0, 1.0, 0.0, 0.0, 0.0, 0.0, 1.0, 0.0, 0.0, 0.0, 0.0, 1.0);
            var b := Matrix4x4(1.0, 0.0, 0.0, 0.0, 0.0, 1.0, 0.0, 0.0, 0.0, 0.0, 1.0, 0.0, 0.0, 0.0, 0.0, 2.0);
            !Affine(b) &&
            !AppliesAsProduct(MatrixOps(ExactMultiply, inverse, ExactMultiplyPoint3x4), a, b)
  {
    var a := Matrix4x4(1.0, 0.0, 0.0, 1.0, 0.0, 1.0, 0.0, 0.0, 0.0, 0.0, 1.0, 0.0, 0.0, 0.0, 0.0, 1.0);
    var b := Matrix4x4(1.0, 0.0, 0.0, 0.0, 0.0, 1.0, 0.0, 0.0, 0.0, 0.0, 1.0, 0.0, 0.0, 0.0, 0.0, 2.0);
    var o := Vector3(0.0, 0.0, 0.0);
    assert ExactMultiply(a, b).m03 == 2.0;
    assert ExactMultiplyPoint3x4(ExactMultiply(a, b), o).x == 2.0;
    assert ExactMultiplyPoint3x4(b, o) == o;
    assert ExactMultiplyPoint3x4(a, o).x == 1.0;
  }

  /** The answer of a ray cast: the point the ray first hits, or nothing. */
  datatype RaycastHit = Hit(point: Vector3) | Miss

  /** A ray cast from an origin along a direction, against the scene as it
      stands in the current frame. */
  type Raycast = (Vector3, Vector3) -> RaycastHit

  /** What the component reads of an object's transform in one frame. */
  datatype Transform = Transform(
    position: Vector3,
    rotation: Quaternion,
    lossyScale: Vector3,
    localToWorldMatrix: Matrix4x4)
}
