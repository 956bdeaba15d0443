/** The virtual trackball of the 3D browser: quaternion helpers, the deformed-sphere
    projection that turns a mouse drag into an incremental rotation, and the view state
    (accumulated rotation, renormalisation counter, zoom, distance and pan offset) that
    drags, zooms and pans update.

    The viewport size, which the source reads from OpenGL, is a parameter. */
module TrackballView {
  import opened RealMath
  import opened Vectors

  /** A quaternion `[x, y, z, w]`: the vector part first, the scalar part last. */
  datatype Quat = Quat(v: Vec3, w: real)

  /** `[0, 0, 0, 1]`, the rotation that does nothing. */
  const Identity: Quat := Quat(Zero, 1.0)

  /** `_q_add`, which despite its name is the quaternion (Hamilton) product, with the
      second operand on the left: `q2 * q1`. */
  function QAdd(q1: Quat, q2: Quat): Quat
  {
    Quat(Add(Cross(q2.v, q1.v), Add(Mul(q1.v, q2.w), Mul(q2.v, q1.w))),
         q1.w * q2.w - Dot(q1.v, q2.v))
  }

  /** The Hamilton product `p * q`, written out component by component. */
  function Hamilton(p: Quat, q: Quat): Quat
  {
    Quat(Vec3(p.w * q.v.x + p.v.x * q.w + p.v.y * q.v.z - p.v.z * q.v.y,
              p.w * q.v.y - p.v.x * q.v.z + p.v.y * q.w + p.v.z * q.v.x,
              p.w * q.v.z + p.v.x * q.v.y - p.v.y * q.v.x + p.v.z * q.w),
         p.w * q.w - p.v.x * q.v.x - p.v.y * q.v.y - p.v.z * q.v.z)
  }

  /** `_q_add(q1, q2)` is the product `q2 * q1`: applying `q1` and then `q2`. */
  lemma QAddIsProduct(q1: Quat, q2: Quat)
    ensures QAdd(q1, q2) == Hamilton(q2, q1)
  {
  }

  /** `[0, 0, 0, 1]` is neutral on both sides. */
  lemma QAddIdentity(q: Quat)
    ensures QAdd(q, Identity) == q && QAdd(Identity, q) == q
  {
  }

  /** `_q_dot`. */
  function QDot(p: Quat, q: Quat): real
  {
    Dot(p.v, q.v) + p.w * q.w
  }

  /** The squared length of a product is the product of the squared lengths, so
      composing unit rotations gives a unit rotation. */
  lemma QAddNorm(p: Quat, q: Quat)
    ensures QDot(QAdd(p, q), QAdd(p, q)) == QDot(p, p) * QDot(q, q)
  {
    var h := QAdd(p, q);
    FourSquares(q.w, q.v.x, q.v.y, q.v.z, p.w, p.v.x, p.v.y, p.v.z, h.v.x, h.v.y, h.v.z, h.w,
                QDot(q, q), QDot(p, p));
  }

  /** Euler's four-square identity, which is the statement that the Hamilton product
      `(a1, b1, c1, d1) * (a2, b2, c2, d2) == (w, x, y, z)` multiplies the squared
      lengths `n1` and `n2`. */
  lemma FourSquares(a1: real, b1: real, c1: real, d1: real, a2: real, b2: real, c2: real, d2: real,
                    x: real, y: real, z: real, w: real, n1: real, n2: real)
    requires x == (c1 * d2 - d1 * c2) + (b2 * a1 + b1 * a2)
    requires y == (d1 * b2 - b1 * d2) + (c2 * a1 + c1 * a2)
    requires z == (b1 * c2 - c1 * b2) + (d2 * a1 + d1 * a2)
    requires w == a2 * a1 - (b2 * b1 + c2 * c1 + d2 * d1)
    requires n1 == (b1 * b1 + c1 * c1 + d1 * d1) + a1 * a1
    requires n2 == (b2 * b2 + c2 * c2 + d2 * d2) + a2 * a2
    ensures (x * x + y * y + z * z) + w * w == n2 * n1
  {
    var e1 := (c1 * d2 - d1 * c2) + (b2 * a1 + b1 * a2);
    var e2 := (d1 * b2 - b1 * d2) + (c2 * a1 + c1 * a2);
    var e3 := (b1 * c2 - c1 * b2) + (d2 * a1 + d1 * a2);
    var e4 := a2 * a1 - (b2 * b1 + c2 * c1 + d2 * d1);
    var m1 := (b1 * b1 + c1 * c1 + d1 * d1) + a1 * a1;
    var m2 := (b2 * b2 + c2 * c2 + d2 * d2) + a2 * a2;
    EulerIdentity(a1, b1, c1, d1, a2, b2, c2, d2);
    assert e1 * e1 + e2 * e2 + e3 * e3 + e4 * e4 == m2 * m1;
    SquareOf(x, e1);
    SquareOf(y, e2);
    SquareOf(z, e3);
    SquareOf(w, e4);
    ProductOf(n2, m2, n1, m1);
  }

  /** The identity itself, as a polynomial in the eight components. */
  lemma EulerIdentity(a1: real, b1: real, c1: real, d1: real, a2: real, b2: real, c2: real, d2: real)
    ensures ((c1 * d2 - d1 * c2) + (b2 * a1 + b1 * a2)) * ((c1 * d2 - d1 * c2) + (b2 * a1 + b1 * a2))
          + ((d1 * b2 - b1 * d2) + (c2 * a1 + c1 * a2)) * ((d1 * b2 - b1 * d2) + (c2 * a1 + c1 * a2))
          + ((b1 * c2 - c1 * b2) + (d2 * a1 + d1 * a2)) * ((b1 * c2 - c1 * b2) + (d2 * a1 + d1 * a2))
          + (a2 * a1 - (b2 * b1 + c2 * c1 + d2 * d1)) * (a2 * a1 - (b2 * b1 + c2 * c1 + d2 * d1))
         == ((b2 * b2 + c2 * c2 + d2 * d2) + a2 * a2) * ((b1 * b1 + c1 * c1 + d1 * d1) + a1 * a1)
  {
  }

  /** Equal values have equal squares. */
  lemma SquareOf(x: real, e: real)
    requires x == e
    ensures x * x == e * e
  {
  }

  /** Equal factors give equal products (a step the solver does not take on its own
      once the factors are sums). */
  lemma ProductOf(x: real, e: real, y: real, f: real)
    requires x == e && y == f
    ensures x * y == e * f
  {
  }

  /** `_q_mul`: every component scaled by `s`. */
  function QMul(q: Quat, s: real): Quat
  {
    Quat(Mul(q.v, s), q.w * s)
  }

  /** `_q_length`. */
  function QLength(m: MathLib, q: Quat): real
  {
    m.sqrt(QDot(q, q))
  }

  /** `_q_normalize`: `q * (1.0 / length)`, or `q` itself when the division by a zero
      length raises `ZeroDivisionError`. */
  function QNormalize(m: MathLib, q: Quat): (r: Quat)
    ensures QLength(m, q) == 0.0 ==> r == q
    ensures QLength(m, q) != 0.0 ==> exists s: real :: s != 0.0 && r == QMul(q, s)
  {
    var len := QLength(m, q);
    if len == 0.0 then q
    else
      assert 1.0 / len != 0.0;
      QMul(q, 1.0 / len)
  }

  /** With a lawful square root, a quaternion of non-zero length normalises to unit
      length. */
  lemma QNormalizeUnit(m: MathLib, q: Quat)
    requires SqrtLaws(m)
    ensures QLength(m, q) != 0.0 ==> QDot(QNormalize(m, q), QNormalize(m, q)) == 1.0
  {
    var d := QDot(q, q);
    assert 0.0 <= d;
    var len := m.sqrt(d);
    if len != 0.0 {
      var s := 1.0 / len;
      assert s * len == 1.0;
      ReciprocalSquare(s, len, d);
      var r := QNormalize(m, q);
      assert r == QMul(q, s);
      assert QDot(r, r) == s * s * d by {
        MulSquaredLength(q.v, s);
      }
    }
  }

  /** `_q_from_axis_angle(v, phi)`: the rotation by `phi` about the normalised axis
      `v`. */
  function QFromAxisAngle(m: MathLib, axis: Vec3, phi: real): Quat
  {
    Quat(Mul(Normalize(m, axis), m.sin(phi / 2.0)), m.cos(phi / 2.0))
  }

  /** `_q_rotmatrix(q)`: the 16 entries of the OpenGL rotation matrix of `q`. */
  function QRotMatrix(q: Quat): (r: seq<real>)
    ensures |r| == 16
    ensures r[3] == r[7] == r[11] == r[12] == r[13] == r[14] == 0.0 && r[15] == 1.0
  {
    var x, y, z, w := q.v.x, q.v.y, q.v.z, q.w;
    [1.0 - 2.0 * (y * y + z * z), 2.0 * (x * y - z * w), 2.0 * (z * x + y * w), 0.0,
     2.0 * (x * y + z * w), 1.0 - 2.0 * (z * z + x * x), 2.0 * (y * z - x * w), 0.0,
     2.0 * (z * x - y * w), 2.0 * (y * z + x * w), 1.0 - 2.0 * (y * y + x * x), 0.0,
     0.0, 0.0, 0.0, 1.0]
  }

  /** The identity rotation gives the identity matrix. */
  lemma QRotMatrixIdentity()
    ensures QRotMatrix(Identity) == [1.0, 0.0, 0.0, 0.0, 0.0, 1.0, 0.0, 0.0,
                                     0.0, 0.0, 1.0, 0.0, 0.0, 0.0, 0.0, 1.0]
  {
  }

  /** `_TRACKBALLSIZE`, the radius of the virtual sphere. */
  const TrackballSize: real := 0.8

  /** `_RENORMCOUNT`. */
  const RenormCount: nat := 97

  /** The constants `_project` writes out for `1 / sqrt(2)` and `sqrt(2)`. */
  const InvSqrt2: real := 0.70710678118654752440
  const Sqrt2: real := 1.41421356237309504880

  /** `_project(r, x, y)`: the height over `(x, y)` of the sphere of radius `r` near the
      centre, and of the hyperbolic sheet `z * d == (r / sqrt 2) ** 2` further out. */
  function Project(m: MathLib, r: real, x: real, y: real): real
    requires 0.0 < r
  {
    var d := m.sqrt(x * x + y * y);
    if d < r * InvSqrt2 then m.sqrt(r * r - d * d)
    else
      var t := r / Sqrt2;
      t * t / d
  }

  /** Whether `(x, y)` is projected onto the sphere. */
  predicate OnSphere(m: MathLib, r: real, x: real, y: real)
  {
    m.sqrt(x * x + y * y) < r * InvSqrt2
  }

  /** Near the centre the projected point lies on the sphere of radius `r`. */
  lemma ProjectSphere(m: MathLib, r: real, x: real, y: real)
    requires SqrtLaws(m) && 0.0 < r && OnSphere(m, r, x, y)
    ensures var z := Project(m, r, x, y); x * x + y * y + z * z == r * r && 0.0 <= z
  {
    var d := m.sqrt(x * x + y * y);
    assert 0.0 <= x * x + y * y;
    assert d * d == x * x + y * y && 0.0 <= d;
    var b := r * InvSqrt2;
    MulLe(d, d, b);
    MulLe(b, d, b);
    assert b * b <= r * r by {
      assert b * b == (r * r) * (InvSqrt2 * InvSqrt2);
      MulLe(r * r, InvSqrt2 * InvSqrt2, 1.0);
    }
  }

  /** Multiplying by a non-negative factor keeps an inequality. */
  lemma MulLe(a: real, b: real, c: real)
    requires 0.0 <= a && b <= c
    ensures a * b <= a * c
  {
  }

  /** Further out the projected points lie on one hyperbolic sheet: the height times the
      distance from the centre is the same for all of them. */
  lemma ProjectSheet(m: MathLib, r: real, x1: real, y1: real, x2: real, y2: real)
    requires !OnSphere(m, r, x1, y1) && !OnSphere(m, r, x2, y2) && 0.0 < r
    ensures Project(m, r, x1, y1) * m.sqrt(x1 * x1 + y1 * y1)
         == Project(m, r, x2, y2) * m.sqrt(x2 * x2 + y2 * y2)
         == (r / Sqrt2) * (r / Sqrt2)
  {
    var d1 := m.sqrt(x1 * x1 + y1 * y1);
    var d2 := m.sqrt(x2 * x2 + y2 * y2);
    assert d1 != 0.0 && d2 != 0.0;
  }

  /** The value `t` clamped into `[-1, 1]`, as `_rotate` does before `asin`. */
  function ClampUnit(t: real): (c: real)
    ensures -1.0 <= c <= 1.0
    ensures -1.0 <= t <= 1.0 ==> c == t
    ensures t > 1.0 ==> c == 1.0
    ensures t < -1.0 ==> c == -1.0
  {
    if t > 1.0 then 1.0 else if t < -1.0 then -1.0 else t
  }

  /** The point `(x, y)` projected onto the trackball. */
  function OnBall(m: MathLib, x: real, y: real): Vec3
  {
    Vec3(x, y, Project(m, TrackballSize, x, y))
  }

  /** The argument `_rotate` hands to `asin`: half the chord between the projected end
      points over the sphere radius, clamped. */
  function AsinArgument(m: MathLib, x: real, y: real, dx: real, dy: real): (t: real)
    ensures -1.0 <= t <= 1.0
  {
    var last := OnBall(m, x, y);
    var next := OnBall(m, x + dx, y + dy);
    ClampUnit(Length(m, Sub(last, next)) / (2.0 * TrackballSize))
  }

  /** `_rotate(x, y, dx, dy)`: no rotation for a drag of zero length; otherwise the
      rotation about the axis orthogonal to both projected end points by twice the
      `asin` of the clamped half chord. */
  function Rotate(m: MathLib, x: real, y: real, dx: real, dy: real): (q: Quat)
    ensures dx == 0.0 && dy == 0.0 ==> q == Identity
    ensures dx != 0.0 || dy != 0.0 ==>
      q == QFromAxisAngle(m, Cross(OnBall(m, x + dx, y + dy), OnBall(m, x, y)),
                          2.0 * m.asin(AsinArgument(m, x, y, dx, dy)))
  {
    if dx == 0.0 && dy == 0.0 then Identity
    else
      var last := OnBall(m, x, y);
      var next := OnBall(m, x + dx, y + dy);
      QFromAxisAngle(m, Cross(next, last), 2.0 * m.asin(AsinArgument(m, x, y, dx, dy)))
  }

  /** The rotation axis of `_rotate` is orthogonal to both projected end points. */
  lemma RotateAxis(m: MathLib, x: real, y: real, dx: real, dy: real)
    ensures var a := Cross(OnBall(m, x + dx, y + dy), OnBall(m, x, y));
      Dot(a, OnBall(m, x, y)) == 0.0 && Dot(a, OnBall(m, x + dx, y + dy)) == 0.0
  {
    CrossOrthogonal(OnBall(m, x + dx, y + dy), OnBall(m, x, y));
  }

  /** A pixel coordinate mapped to `[-1, 1]` across a viewport extent of `size`. */
  function ToUnit(p: real, size: real): (u: real)
    requires size != 0.0
    ensures (u + 1.0) * size == 2.0 * p
  {
    (p * 2.0 - size) / size
  }

  /** A pixel step in the same units. */
  function StepToUnit(dp: real, size: real): (du: real)
    requires size != 0.0
    ensures du * size == 2.0 * dp
  {
    (2.0 * dp) / size
  }

  /** The counter after one more drag: reset to zero when it would exceed
      `_RENORMCOUNT`. */
  function NextCount(count: nat): (c: nat)
    ensures c <= RenormCount
    ensures c == 0 <==> count + 1 > RenormCount
  {
    if count + 1 > RenormCount then 0 else count + 1
  }

  /** The counter after `k` drags from a fresh trackball. */
  function CountAfter(k: nat): nat
  {
    if k == 0 then 0 else NextCount(CountAfter(k - 1))
  }

  /** The counter cycles with period 98: it is reset, and the rotation renormalised, on
      every 98th drag. */
  lemma {:induction false} CountPeriod(k: nat)
    ensures CountAfter(k) == k % (RenormCount + 1)
  {
    if k > 0 {
      CountPeriod(k - 1);
      var c := (k - 1) % 98;
      assert k - 1 == (k - 1) / 98 * 98 + c;
      if c == 97 {
        assert k == ((k - 1) / 98 + 1) * 98;
      } else {
        assert k == (k - 1) / 98 * 98 + (c + 1);
      }
    }
  }

  /** The zoom the setter stores for `z`: `z` clamped into `[0.25, 100]`. */
  function ClampZoom(z: real): (r: real)
    ensures 0.25 <= r <= 100.0
    ensures 0.25 <= z <= 100.0 ==> r == z
    ensures z < 0.25 ==> r == 0.25
    ensures z > 100.0 ==> r == 100.0
  {
    if z < 0.25 then 0.25 else if z > 100.0 then 100.0 else z
  }

  /** The distance the setter stores for `d`: `int(d)`, raised to at least 1. */
  function DistanceOf(d: real): (r: int)
    ensures 1 <= r
    ensures 1 <= Trunc(d) ==> r == Trunc(d)
    ensures Trunc(d) < 1 ==> r == 1
  {
    if Trunc(d) < 1 then 1 else Trunc(d)
  }

  /** The rotation `_set_orientation` builds from `theta` and `phi` (in degrees): a
      rotation by `theta` about x, then one by `phi` about z. */
  function XRot(m: MathLib, theta: real): Quat
  {
    Quat(Vec3(m.sin(0.5 * Radians(theta)), 0.0, 0.0), m.cos(0.5 * Radians(theta)))
  }

  function ZRot(m: MathLib, phi: real): Quat
  {
    Quat(Vec3(0.0, 0.0, m.sin(0.5 * Radians(phi))), m.cos(0.5 * Radians(phi)))
  }

  /** The composed orientation in closed form, with `sx`, `cx` the sine and cosine of
      half of `theta` and `sz`, `cz` those of half of `phi`. */
  lemma OrientationClosedForm(m: MathLib, theta: real, phi: real)
    ensures var sx, cx := m.sin(0.5 * Radians(theta)), m.cos(0.5 * Radians(theta));
      var sz, cz := m.sin(0.5 * Radians(phi)), m.cos(0.5 * Radians(phi));
      QAdd(XRot(m, theta), ZRot(m, phi)) == Quat(Vec3(sx * cz, sx * sz, cx * sz), cx * cz)
  {
  }

  class Trackball {
    /** `_rotation`. */
    var rotation: Quat
    /** `_count`, the drags since the last renormalisation. */
    var count: nat
    /** `_matrix`, the rotation matrix handed to OpenGL. */
    var matrix: seq<real>
    /** `_zoom`, through the `zoom` property. */
    var zoom: real
    /** `_distance`, through the `distance` property. */
    var distance: int
    /** The pan offset. */
    var x: real
    var y: real
    var aperture: real
    var near: real
    var far: real
    /** `_theta` and `_phi`, the last orientation set, in degrees. */
    var theta: real
    var phi: real
    var show: bool

    /** The trackball's invariants: the counter is at most `_RENORMCOUNT`, the zoom is
        within `[0.25, 100]`, the distance is at least 1, and the matrix is that of the
        rotation. */
    ghost predicate Valid()
      reads this
    {
      && count <= RenormCount
      && 0.25 <= zoom <= 100.0
      && 1 <= distance
      && matrix == QRotMatrix(rotation)
    }

    /** `Trackball(theta, phi, zoom, distance)`: the zoom and the distance go through
        their setters, and the rotation is set from the two angles. */
    constructor (m: MathLib, theta: real, phi: real, zoom: real, distance: real)
      ensures Valid()
      ensures this.zoom == ClampZoom(zoom) && this.distance == DistanceOf(distance)
      ensures x == 0.0 && y == 0.0 && count == 0 && show
      ensures aperture == 35.0 && near == 0.1 && far == 1000.0
      ensures this.theta == theta && this.phi == phi
      ensures rotation == QAdd(XRot(m, theta), ZRot(m, phi))
    {
      this.zoom := ClampZoom(zoom);
      this.distance := DistanceOf(distance);
      x := 0.0;
      y := 0.0;
      aperture := 35.0;
      near := 0.1;
      far := 1000.0;
      count := 0;
      this.theta := theta;
      this.phi := phi;
      rotation := QAdd(XRot(m, theta), ZRot(m, phi));
      matrix := QRotMatrix(QAdd(XRot(m, theta), ZRot(m, phi)));
      show := true;
    }

    /** `_set_orientation(theta, phi)`. */
    method SetOrientation(m: MathLib, theta: real, phi: real)
      requires Valid()
      modifies this`theta, this`phi, this`rotation, this`matrix
      ensures Valid()
      ensures this.theta == theta && this.phi == phi
      ensures rotation == QAdd(XRot(m, theta), ZRot(m, phi))
    {
      this.theta := theta;
      this.phi := phi;
      rotation := QAdd(XRot(m, theta), ZRot(m, phi));
      matrix := QRotMatrix(rotation);
    }

    /** `drag_to(x, y, dx, dy)` in a viewport of `width` by `height` pixels: the
        incremental rotation of the drag is composed onto the current one, and every
        98th drag renormalises it. `ok` is false, with nothing changed, where the
        division by a zero viewport extent raises. */
    method DragTo(m: MathLib, px: real, py: real, dx: real, dy: real, width: real, height: real)
      returns (ok: bool)
      requires Valid()
      modifies this`rotation, this`count, this`matrix
      ensures Valid()
      ensures ok <==> width != 0.0 && height != 0.0
      ensures !ok ==> unchanged(this)
      ensures ok ==>
        var q := Rotate(m, ToUnit(px, width), ToUnit(py, height), StepToUnit(dx, width), StepToUnit(dy, height));
        && count == NextCount(old(count))
        && rotation == (if count == 0 then QNormalize(m, QAdd(q, old(rotation))) else QAdd(q, old(rotation)))
    {
      if width == 0.0 || height == 0.0 {
        return false;
      }
      var q := Rotate(m, ToUnit(px, width), ToUnit(py, height), StepToUnit(dx, width), StepToUnit(dy, height));
      rotation := QAdd(q, rotation);
      count := count + 1;
      if count > RenormCount {
        rotation := QNormalize(m, rotation);
        count := 0;
      }
      matrix := QRotMatrix(rotation);
      return true;
    }

    /** The `zoom` setter. */
    method SetZoom(z: real)
      modifies this`zoom
      ensures zoom == ClampZoom(z)
    {
      zoom := ClampZoom(z);
    }

    /** The `distance` setter. */
    method SetDistance(d: real)
      modifies this`distance
      ensures distance == DistanceOf(d)
    {
      distance := DistanceOf(d);
    }

    /** `zoom_to(x, y, dx, dy)` in a viewport `height` pixels high: the zoom drops by
        `5 * dy / height` and is clamped again. `ok` is false, with nothing changed,
        where the division by a zero height raises. */
    method ZoomTo(dy: real, height: real) returns (ok: bool)
      requires Valid()
      modifies this`zoom
      ensures Valid()
      ensures ok <==> height != 0.0
      ensures !ok ==> zoom == old(zoom)
      ensures ok ==> zoom == ClampZoom(old(zoom) - 5.0 * dy / height)
    {
      if height == 0.0 {
        return false;
      }
      SetZoom(zoom - 5.0 * dy / height);
      return true;
    }

    /** `pan_to(x, y, dx, dy)`: the offset moves by `0.005` per pixel when zoomed in
        (zoom below 1) and by `0.01` otherwise. */
    method PanTo(dx: real, dy: real)
      modifies this`x, this`y
      ensures zoom < 1.0 ==> x == old(x) + dx * 0.005 && y == old(y) + dy * 0.005
      ensures 1.0 <= zoom ==> x == old(x) + dx * 0.01 && y == old(y) + dy * 0.01
    {
      if zoom < 1.0 {
        x := x + dx * 0.005;
        y := y + dy * 0.005;
      } else {
        x := x + dx * 0.01;
        y := y + dy * 0.01;
      }
    }

    /** `_show()`. */
    method Show()
      modifies this`show
      ensures show
    {
      show := true;
    }

    /** `_hide()`. */
    method Hide()
      modifies this`show
      ensures !show
    {
      show := false;
    }
  }
}
