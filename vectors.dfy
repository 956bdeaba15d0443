/** The three-component vector helpers `_v_add`, `_v_sub`, `_v_mul`, `_v_dot`,
    `_v_cross`, `_v_length` and `_v_normalize`, which the trackball and the eye camera
    each define (identically). Python lists of three floats become `Vec3` values. */
module Vectors {
  import opened RealMath

  datatype Vec3 = Vec3(x: real, y: real, z: real)

  const Zero: Vec3 := Vec3(0.0, 0.0, 0.0)

  /** `_v_add`: componentwise sum. */
  function Add(a: Vec3, b: Vec3): Vec3
  {
    Vec3(a.x + b.x, a.y + b.y, a.z + b.z)
  }

  /** `_v_sub`: componentwise difference. */
  function Sub(a: Vec3, b: Vec3): Vec3
  {
    Vec3(a.x - b.x, a.y - b.y, a.z - b.z)
  }

  /** `_v_mul`: scaling by `s`. */
  function Mul(v: Vec3, s: real): Vec3
  {
    Vec3(v.x * s, v.y * s, v.z * s)
  }

  /** `_v_dot`. */
  function Dot(a: Vec3, b: Vec3): real
  {
    a.x * b.x + a.y * b.y + a.z * b.z
  }

  /** `_v_cross`. */
  function Cross(a: Vec3, b: Vec3): Vec3
  {
    Vec3(a.y * b.z - a.z * b.y,
         a.z * b.x - a.x * b.z,
         a.x * b.y - a.y * b.x)
  }

  /** Subtracting the second operand undoes an addition, and a difference is zero
      exactly when the operands are equal. */
  lemma AddSub(a: Vec3, b: Vec3)
    ensures Sub(Add(a, b), b) == a
    ensures Sub(a, b) == Zero <==> a == b
  {
  }

  /** Scaling by `s` scales the squared length by `s * s`. */
  lemma MulSquaredLength(v: Vec3, s: real)
    ensures Dot(Mul(v, s), Mul(v, s)) == s * s * Dot(v, v)
  {
  }

  /** The cross product is orthogonal to both operands. */
  lemma CrossOrthogonal(a: Vec3, b: Vec3)
    ensures Dot(Cross(a, b), a) == 0.0 && Dot(Cross(a, b), b) == 0.0
  {
  }

  /** `_v_length`. */
  function Length(m: MathLib, v: Vec3): real
  {
    m.sqrt(Dot(v, v))
  }

  /** `_v_normalize`: `v * (1.0 / length)`, or `v` itself when the division by a zero
      length raises `ZeroDivisionError`. */
  function Normalize(m: MathLib, v: Vec3): (r: Vec3)
    ensures Length(m, v) == 0.0 ==> r == v
    ensures Length(m, v) != 0.0 ==> exists s: real :: s != 0.0 && r == Mul(v, s)
  {
    var len := Length(m, v);
    if len == 0.0 then v
    else
      assert 1.0 / len != 0.0;
      Mul(v, 1.0 / len)
  }

  /** If `len` squares to `d` and `s` is its reciprocal, `s` squared scales `d` to one. */
  lemma ReciprocalSquare(s: real, len: real, d: real)
    requires len * len == d && s * len == 1.0
    ensures s * s * d == 1.0
  {
    calc {
      s * s * d;
      s * s * (len * len);
      (s * len) * (s * len);
    }
  }

  /** With a lawful square root, normalising a vector of non-zero length gives unit
      length, and the zero vector comes back unchanged. */
  lemma NormalizeUnit(m: MathLib, v: Vec3)
    requires SqrtLaws(m)
    ensures Length(m, v) != 0.0 ==> Dot(Normalize(m, v), Normalize(m, v)) == 1.0
  {
    var d := Dot(v, v);
    assert 0.0 <= d;
    var len := m.sqrt(d);
    assert len * len == d;
    if len != 0.0 {
      var s := 1.0 / len;
      assert s * len == 1.0;
      ReciprocalSquare(s, len, d);
      assert Normalize(m, v) == Mul(v, s);
      MulSquaredLength(v, s);
    }
  }
}
