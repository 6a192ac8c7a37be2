/**
 * Three-dimensional vectors. Every operation of the source builds a new vector
 * and never writes `x`, `y` or `z` after construction, so vectors are values here.
 */
module Vectors {
  import opened Numeric

  datatype Vector3 = Vector3(x: real, y: real, z: real)

  /** `new Vector3()`. */
  const Zero := Vector3(0.0, 0.0, 0.0)

  function Add(a: Vector3, b: Vector3): (r: Vector3)
    ensures Subtract(r, b) == a
  {
    Vector3(a.x + b.x, a.y + b.y, a.z + b.z)
  }

  /** The difference is the zero vector exactly when the operands are equal. */
  function Subtract(a: Vector3, b: Vector3): (r: Vector3)
    ensures r == Zero <==> a == b
  {
    Vector3(a.x - b.x, a.y - b.y, a.z - b.z)
  }

  /** Scaling by one keeps the vector and scaling by zero gives the zero vector. */
  function Multiply(v: Vector3, scalar: real): (r: Vector3)
    ensures scalar == 1.0 ==> r == v
    ensures scalar == 0.0 ==> r == Zero
  {
    Vector3(v.x * scalar, v.y * scalar, v.z * scalar)
  }

  function Divide(v: Vector3, scalar: real): (r: Vector3)
    requires scalar != 0.0
    ensures Multiply(r, scalar) == v
  {
    Vector3(v.x / scalar, v.y / scalar, v.z / scalar)
  }

  /** The dot product with the zero vector is zero. */
  function Dot(a: Vector3, b: Vector3): (r: real)
    ensures a == Zero || b == Zero ==> r == 0.0
  {
    a.x * b.x + a.y * b.y + a.z * b.z
  }

  function Cross(a: Vector3, b: Vector3): (r: Vector3)
    ensures Dot(a, r) == 0.0 && Dot(b, r) == 0.0
  {
    var r := Vector3(a.y * b.z - a.z * b.y, a.z * b.x - a.x * b.z, a.x * b.y - a.y * b.x);
    assert a.x * (a.y * b.z - a.z * b.y) + a.y * (a.z * b.x - a.x * b.z) + a.z * (a.x * b.y - a.y * b.x) == 0.0;
    assert b.x * (a.y * b.z - a.z * b.y) + b.y * (a.z * b.x - a.x * b.z) + b.z * (a.x * b.y - a.y * b.x) == 0.0;
    r
  }

  function Magnitude(m: MathLib, v: Vector3): (r: real)
    requires m.Lawful()
    ensures r >= 0.0
    ensures v == Zero ==> r == 0.0
  {
    DotSelfNonNegative(v);
    m.sqrt(Dot(v, v))
  }

  lemma DotSelfNonNegative(v: Vector3)
    ensures Dot(v, v) >= 0.0
  {
    SquareNonNegative(v.x);
    SquareNonNegative(v.y);
    SquareNonNegative(v.z);
  }

  /** `distanceTo`: the length of the difference. */
  function DistanceTo(m: MathLib, a: Vector3, b: Vector3): (r: real)
    requires m.Lawful()
    ensures r >= 0.0
    ensures a == b ==> r == 0.0
  {
    Magnitude(m, Subtract(a, b))
  }

  /** The unit vector along `v`, or the zero vector when `v` has zero length. */
  function Normalize(m: MathLib, v: Vector3): (r: Vector3)
    requires m.Lawful()
    ensures Magnitude(m, v) == 0.0 ==> r == Zero
    ensures Magnitude(m, v) != 0.0 ==> Multiply(r, Magnitude(m, v)) == v
  {
    var mag := Magnitude(m, v);
    if mag == 0.0 then Zero else Divide(v, mag)
  }

  /**
   * `rotate(axis, angle)`: Rodrigues' rotation matrix for a unit `axis`, applied
   * row by row.
   */
  function Rotate(m: MathLib, v: Vector3, axis: Vector3, angle: real): (r: Vector3)
    ensures v == Zero ==> r == Zero
  {
    var c := m.cos(angle);
    var s := m.sin(angle);
    var t := 1.0 - c;
    Vector3(
      v.x * (c + axis.x * axis.x * t) + v.y * (axis.x * axis.y * t - axis.z * s) + v.z * (axis.x * axis.z * t + axis.y * s),
      v.x * (axis.y * axis.x * t + axis.z * s) + v.y * (c + axis.y * axis.y * t) + v.z * (axis.y * axis.z * t - axis.x * s),
      v.x * (axis.z * axis.x * t - axis.y * s) + v.y * (axis.z * axis.y * t + axis.x * s) + v.z * (c + axis.z * axis.z * t))
  }

  /** A rotation by the zero angle leaves every vector where it is. */
  lemma RotateByZero(m: MathLib, v: Vector3, axis: Vector3)
    requires m.Lawful()
    ensures Rotate(m, v, axis, 0.0) == v
  {
  }

  /** A unit axis is fixed by every rotation about itself. */
  lemma RotateFixesAxis(m: MathLib, axis: Vector3, angle: real)
    requires Dot(axis, axis) == 1.0
    ensures Rotate(m, axis, axis, angle) == axis
  {
    var c := m.cos(angle);
    var s := m.sin(angle);
    var t := 1.0 - c;
    var r := Rotate(m, axis, axis, angle);
    assert r.x == axis.x * c + axis.x * t * Dot(axis, axis);
    assert r.y == axis.y * c + axis.y * t * Dot(axis, axis);
    assert r.z == axis.z * c + axis.z * t * Dot(axis, axis);
  }

  /** `clone()`: a vector with equal fields (a new object in the source). */
  function Clone(v: Vector3): (r: Vector3)
    ensures r.x == v.x && r.y == v.y && r.z == v.z
  {
    Vector3(v.x, v.y, v.z)
  }

  lemma AddCommutes(a: Vector3, b: Vector3)
    ensures Add(a, b) == Add(b, a)
  {
  }

  lemma DotSymmetric(a: Vector3, b: Vector3)
    ensures Dot(a, b) == Dot(b, a)
  {
  }

  lemma CrossAntiCommutes(a: Vector3, b: Vector3)
    ensures Cross(a, b) == Multiply(Cross(b, a), -1.0)
  {
  }

  lemma NormalizeZero(m: MathLib)
    requires m.Lawful()
    ensures Normalize(m, Zero) == Zero
  {
  }

  lemma CrossSelfIsZero(a: Vector3)
    ensures Cross(a, a) == Zero
  {
  }
}
