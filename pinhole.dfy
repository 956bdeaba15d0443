/** The pinhole camera of the 3D browser: a camera built from one 5x3 block of a
    Bundler `bundle.out` file (row 0 holds the focal length, rows 1-3 the rotation `R`,
    row 4 the translation `t`), its viewing pyramid, the optional gaze point and gaze cone,
    and the test that collects the points of the cloud lying inside that cone.

    The block is the flat row-major array numpy stores (entry `(r, k)` at `3 * r + k`).
    The sign flips of the constructor change the caller's block. `R` and `t` are numpy
    views of it; no method of the camera writes the block after the constructor (the
    method that would reassign them, `factor`, needs the projection matrix, which is
    never set), so the model keeps them as the values they hold once the constructor is
    done. A block passed to a second constructor is flipped again, and the earlier
    camera's views would follow it; the model's `R` and `t` do not. */
module Pinhole {
  import opened RealMath
  import opened Vectors
  import opened Geometry
  import opened Optional
  import opened Sorting

  /** The image attached to a camera: glumpy's `width` and `height`, and the
      `my_scale` factor the browser stores on it when it shrinks the picture. */
  datatype Image = Image(width: real, height: real, myScale: real)

  /** The normalised pupil position recorded for the camera's frame (`eye`). */
  datatype Gaze = Gaze(gx: real, gy: real)

  /** An entry of `inside_cone`: the point in the cone frame, its row in the point
      array, and its distance from the apex. */
  datatype Hit = Hit(point: Vec3, index: nat, dist: real)

  /** A 3x4 projection matrix, for `project`. */
  datatype Mat34 = Mat34(r0: Vec4, r1: Vec4, r2: Vec4)

  /** The colours of the pyramid wireframe and of the gaze point. */
  const PyramidColor: seq<real> := [1.0, 0.0, 0.0, 1.0]
  const EyeColor: seq<real> := [1.0, 0.0, 0.0, 0.5]

  /** The factor by which the gaze point is pulled inside the image rectangle. */
  const PointScale: real := 0.99

  /** `cone_len` when no point lies in the gaze cone. */
  const DefaultConeLength: real := 0.2

  // ---------------------------------------------------------------------------
  // The 5x3 block and what the constructor does to it

  /** Row `r` of the block. */
  function BlockRow(b: seq<real>, r: nat): Vec3
    requires 3 * r + 3 <= |b|
  {
    Vec3(b[3 * r], b[3 * r + 1], b[3 * r + 2])
  }

  /** `C[1:4]`: the rotation, rows 1 to 3 of the block. */
  function Rot(b: seq<real>): Mat3
    requires |b| == 15
  {
    MatAt(b, 3)
  }

  /** `C[-1]`: the translation, the last row of the block. */
  function Trans(b: seq<real>): Vec3
    requires |b| == 15
  {
    BlockRow(b, 4)
  }

  /** `R[1:] *= -1` and `t[1:] *= -1` on the views: rows 2 and 3 of the block and the
      last two entries of row 4 change sign. */
  function InitialFlips(b: seq<real>): (r: seq<real>)
    requires |b| == 15
    ensures |r| == 15
  {
    NegateRange(NegateRange(b, 6, 12), 13, 15)
  }

  /** The block once the constructor has run: the flips above, then the negation of the
      whole of `R` that `rotation_matrix_gl` performs in place. */
  function Constructed(b: seq<real>): (r: seq<real>)
    requires |b| == 15
    ensures |r| == 15
  {
    NegateRange(InitialFlips(b), 3, 12)
  }

  /** After construction the rotation is the block's rows 1-3 with only row 1 negated (the
      second flip of rows 2 and 3 undoes the first), the translation is `[t0, -t1, -t2]`,
      and row 0, which holds the focal length, is untouched. */
  lemma ConstructedPose(b: seq<real>)
    requires |b| == 15
    ensures Rot(Constructed(b)) == Mat3(Neg(BlockRow(b, 1)), BlockRow(b, 2), BlockRow(b, 3))
    ensures Trans(Constructed(b)) == Vec3(b[12], -b[13], -b[14])
    ensures Constructed(b)[..3] == b[..3]
  {
  }

  /** The two in-place negations of the camera constructor: `R[1:] *= -1` on rows 2
      and 3 of the rotation (entries 6 to 11 of the flat block) and `t[1:] *= -1` on the
      last two entries of the translation. */
  method FlipBlock(block: array<real>)
    requires block.Length == 15
    modifies block
    ensures block[..] == InitialFlips(old(block[..]))
  {
    ghost var b0 := block[..];
    forall i | 6 <= i < 12 {
      block[i] := -block[i];
    }
    assert block[..] == NegateRange(b0, 6, 12);
    forall i | 13 <= i < 15 {
      block[i] := -block[i];
    }
  }

  /** `rotation_matrix_gl(R)` where `R` is the 3x3 matrix stored row-major in
      `buf[off..off + 9]`: negates `R` in place, then returns the flat 4x4 OpenGL matrix
      holding the negated `R`. */
  method RotationMatrixGl(buf: array<real>, off: nat) returns (gl: Mat4)
    requires off + 9 <= buf.Length
    modifies buf
    ensures buf[..] == NegateRange(old(buf[..]), off, off + 9)
    ensures gl == GlLayout(MatAt(buf[..], off))
  {
    forall i | off <= i < off + 9 {
      buf[i] := -buf[i];
    }
    gl := GlLayout(MatAt(buf[..], off));
  }

  /** What the camera constructor does to the block it is given: the two sign flips,
      then `rotation_matrix_gl(R)` on the rotation rows, which negates them in place and
      returns their OpenGL layout. */
  method PrepareBlock(block: array<real>) returns (gl: Mat4)
    requires block.Length == 15
    modifies block
    ensures block[..] == Constructed(old(block[..]))
    ensures gl == GlLayout(Rot(block[..]))
  {
    FlipBlock(block);
    gl := RotationMatrixGl(block, 3);
  }

  /** The row-major entries of `m`. */
  function Flatten(m: Mat3): (b: seq<real>)
    ensures |b| == 9 && MatAt(b, 0) == m
  {
    [m.r0.x, m.r0.y, m.r0.z, m.r1.x, m.r1.y, m.r1.z, m.r2.x, m.r2.y, m.r2.z]
  }

  /** Negating a matrix's storage in place negates the matrix. */
  lemma NegatedStorage(m: Mat3)
    ensures MatAt(NegateRange(Flatten(m), 0, 9), 0) == NegMat(m)
  {
  }

  // ---------------------------------------------------------------------------
  // The viewing pyramid

  /** The half-extents of the image rectangle in world units and its distance `Z` from
      the apex, together with the half field of view `angle`. */
  datatype Frustum = Frustum(angle: real, w: real, h: real, z: real)

  /** `pyramid_angle` (its else branch, the only one reachable because `fy` is set to
      `fx`): the half field of view `atan2(0.5 * width / my_scale, fx)`. */
  function FieldAngle(m: MathLib, im: Image, fx: real): real
    requires im.myScale != 0.0
  {
    m.atan2(0.5 * im.width / im.myScale, fx)
  }

  /** `0.5 * (scale * size)`: half of an image extent in world units. */
  function HalfExtent(scale: real, size: real): real
  {
    0.5 * (scale * size)
  }

  /** The first lines of `make_pyramid`. `None` where the source divides by zero: an
      image scale of 0, or a field of view whose tangent is 0. */
  function FrustumOf(m: MathLib, im: Image, scale: real, fx: real): (fr: Option<Frustum>)
    ensures fr.None? <==> im.myScale == 0.0 || m.tan(FieldAngle(m, im, fx)) == 0.0
    ensures fr.Some? ==>
      && fr.value.angle == FieldAngle(m, im, fx)
      && fr.value.w == HalfExtent(scale, im.width)
      && fr.value.h == HalfExtent(scale, im.height)
  {
    if im.myScale == 0.0 then None
    else
      var ax := FieldAngle(m, im, fx);
      if m.tan(ax) == 0.0 then None
      else
        var w := HalfExtent(scale, im.width);
        Some(Frustum(ax, w, HalfExtent(scale, im.height), w / m.tan(ax)))
  }

  /** The image plane sits at the depth `Z` where the half field of view spans the half
      width: `Z * tan(angle) == W`. */
  lemma FrustumDepth(m: MathLib, im: Image, scale: real, fx: real)
    ensures FrustumOf(m, im, scale, fx).Some? ==>
      var fr := FrustumOf(m, im, scale, fx).value;
      fr.z * m.tan(fr.angle) == fr.w
  {
  }

  /** `p * R + t * R`: a point of the camera frame placed in the world. */
  function ToWorld(p: Vec3, rot: Mat3, t: Vec3): Vec3
  {
    Add(RowTimes(p, rot), RowTimes(t, rot))
  }

  /** The apex and the four base corners in the camera frame, in the source's order:
      bottom left, top left, top right, bottom right. */
  function LocalCorners(fr: Frustum): (ps: seq<Vec3>)
    ensures |ps| == 5 && ps[0] == Zero
    ensures forall k | 1 <= k < 5 :: ps[k].z == -fr.z
    ensures ps[1].x == ps[2].x == -fr.w && ps[3].x == ps[4].x == fr.w
    ensures ps[1].y == ps[4].y == -fr.h && ps[2].y == ps[3].y == fr.h
  {
    [Zero,
     Vec3(-fr.w, -fr.h, -fr.z),
     Vec3(-fr.w, fr.h, -fr.z),
     Vec3(fr.w, fr.h, -fr.z),
     Vec3(fr.w, -fr.h, -fr.z)]
  }

  /** The five pyramid points in the world. */
  function PyramidPoints(fr: Frustum, rot: Mat3, t: Vec3): (ps: seq<Vec3>)
    ensures |ps| == 5
  {
    var l := LocalCorners(fr);
    [ToWorld(l[0], rot, t), ToWorld(l[1], rot, t), ToWorld(l[2], rot, t),
     ToWorld(l[3], rot, t), ToWorld(l[4], rot, t)]
  }

  /** One coordinate of the corner identities below, for row weights `a`, `b`, `c` and
      translation coordinate `tc`. */
  lemma CornerCoordinates(w: real, h: real, z: real, a: real, b: real, c: real, tc: real)
    ensures ((-w) * a + (-h) * b + (-z) * c + tc) + (w * a + h * b + (-z) * c + tc)
         == ((-w) * a + h * b + (-z) * c + tc) + (w * a + (-h) * b + (-z) * c + tc)
    ensures ((-w) * a + (-h) * b + (-z) * c + tc) + (w * a + h * b + (-z) * c + tc)
         == 2.0 * (0.0 * a + 0.0 * b + (-z) * c + tc)
  {
  }

  /** The apex lands on the camera centre `t * R`, and the base is a parallelogram whose
      centre is the focal point `[0, 0, -Z] * R + t * R`. */
  lemma PyramidGeometry(fr: Frustum, rot: Mat3, t: Vec3)
    ensures PyramidPoints(fr, rot, t)[0] == RowTimes(t, rot)
    ensures Add(PyramidPoints(fr, rot, t)[1], PyramidPoints(fr, rot, t)[3])
         == Add(PyramidPoints(fr, rot, t)[2], PyramidPoints(fr, rot, t)[4])
    ensures Add(PyramidPoints(fr, rot, t)[1], PyramidPoints(fr, rot, t)[3])
         == Scale(ToWorld(Vec3(0.0, 0.0, -fr.z), rot, t), 2.0)
  {
    var tr := RowTimes(t, rot);
    CornerCoordinates(fr.w, fr.h, fr.z, rot.r0.x, rot.r1.x, rot.r2.x, tr.x);
    CornerCoordinates(fr.w, fr.h, fr.z, rot.r0.y, rot.r1.y, rot.r2.y, tr.y);
    CornerCoordinates(fr.w, fr.h, fr.z, rot.r0.z, rot.r1.z, rot.r2.z, tr.z);
  }

  /** A vertex of the pyramid wireframe. */
  function PyramidVertex(p: Vec3): Vertex
  {
    Vertex(p, UpNormal, PyramidColor)
  }

  /** The corner each of the 20 wireframe vertices sits on: the base quad p1..p4, then
      for each side the quad (apex, p_k, p_(k mod 4 + 1), apex). */
  const WireOrder: seq<nat> := [1, 2, 3, 4, 0, 1, 2, 0, 0, 2, 3, 0, 0, 3, 4, 0, 0, 4, 1, 0]

  /** The wireframe vertices on the corners `order` names, in that order. */
  function WireVertices(p: seq<Vec3>, order: seq<nat>): (v: seq<Vertex>)
    requires forall k | 0 <= k < |order| :: order[k] < |p|
    ensures |v| == |order|
    ensures forall k | 0 <= k < |order| :: v[k] == PyramidVertex(p[order[k]])
  {
    if order == [] then []
    else WireVertices(p, order[..|order| - 1]) + [PyramidVertex(p[order[|order| - 1]])]
  }

  /** The 20-vertex wireframe of the pyramid points `p`. */
  function PyramidVertices(p: seq<Vec3>): seq<Vertex>
    requires |p| == 5
  {
    WireVertices(p, WireOrder)
  }

  /** The wireframe draws every vertex with the up normal and the pyramid colour; its
      first four vertices are the base corners in order, and side `k` runs from the
      apex along the edge from corner `k + 1` to the next corner and back to the apex. */
  lemma PyramidWireframe(p: seq<Vec3>)
    requires |p| == 5
    ensures var v := PyramidVertices(p);
      && |v| == 20
      && (forall k | 0 <= k < 20 :: v[k].normal == UpNormal && v[k].color == PyramidColor)
      && (forall k | 0 <= k < 4 :: v[k].position == p[k + 1])
      && (forall k | 0 <= k < 4 ::
            && v[4 + 4 * k].position == p[0]
            && v[5 + 4 * k].position == p[k + 1]
            && v[6 + 4 * k].position == p[if k == 3 then 1 else k + 2]
            && v[7 + 4 * k].position == p[0])
  {
  }

  /** The gaze point moved onto the image plane, in the camera frame. */
  function EyeLocal(fr: Frustum, tanA: real, g: Gaze): Vec3
    requires tanA != 0.0
  {
    Vec3((-fr.w * PointScale) * g.gx, (-fr.h * PointScale) * g.gy, -(fr.w * PointScale) / tanA)
  }

  /** The moved gaze point lies at the depth where the half field of view spans 0.99 of
      the half width, so its depth is zero exactly when the image has no width. */
  lemma EyeDepthZero(fr: Frustum, tanA: real, g: Gaze)
    requires tanA != 0.0
    ensures EyeLocal(fr, tanA, g).z * tanA == -(fr.w * PointScale)
    ensures EyeLocal(fr, tanA, g).z == 0.0 <==> fr.w == 0.0
  {
    var e := EyeLocal(fr, tanA, g);
    assert e.z * tanA == -(fr.w * PointScale);
    if e.z == 0.0 {
      assert -(fr.w * PointScale) == 0.0;
    }
  }

  /** The frustum's field of view has a non-zero tangent, so the gaze point can be moved
      onto the image plane. */
  predicate Viewable(m: MathLib, fr: Frustum)
  {
    m.tan(fr.angle) != 0.0
  }

  /** The gaze point of `make_pyramid` in the camera frame. */
  function GazePoint(m: MathLib, fr: Frustum, g: Gaze): Vec3
    requires Viewable(m, fr)
  {
    EyeLocal(fr, m.tan(fr.angle), g)
  }

  /** The gaze point of `make_pyramid` has depth zero exactly when the image has no
      width; the model's gaze branch fails there (see `GazeStored`). */
  lemma GazeDepthZero(m: MathLib, fr: Frustum, g: Gaze)
    requires Viewable(m, fr)
    ensures GazePoint(m, fr, g).z == 0.0 <==> fr.w == 0.0
  {
    EyeDepthZero(fr, m.tan(fr.angle), g);
  }

  /** What the gaze branch of `make_pyramid()` leaves for the frustum `fr`, the gaze
      `g` and the pose `rot`, `t`: with no gaze, no gaze vertex and success; with a gaze,
      the gaze vertex moved onto the image plane and placed in the world, success exactly
      when the image has a width, and on success the OpenGL layout of the negated cone
      rotation. At zero width numpy's division by the zero depth gives inf or nan: the
      source then raises in `tan` only when the height times `gy` is non-zero, and
      otherwise goes on with NaN rotations; the model reports failure in both cases. */
  predicate GazeStored(m: MathLib, fr: Frustum, g: Option<Gaze>, rot: Mat3, t: Vec3,
                       eyePoint: Option<Vertex>, coneGl: Option<Mat4>, ok: bool)
    requires Viewable(m, fr)
  {
    if g.None? then eyePoint == None && ok
    else
      var e := GazePoint(m, fr, g.value);
      && eyePoint == Some(Vertex(ToWorld(e, rot, t), UpNormal, EyeColor))
      && (ok <==> fr.w != 0.0)
      && (ok ==> coneGl == Some(GlLayout(NegMat(ConeRotation(m, e)))))
  }

  /** The contents of `R_cone` once `rotation_matrix_gl` has negated it: the cone
      rotation for the gaze `g`, negated, row-major. */
  function ConeStorage(m: MathLib, fr: Frustum, g: Gaze): seq<real>
    requires Viewable(m, fr) && fr.w != 0.0
  {
    GazeDepthZero(m, fr, g);
    Flatten(NegMat(ConeRotation(m, GazePoint(m, fr, g))))
  }

  /** Rotation by `th` about the y axis. */
  function RotY(m: MathLib, th: real): Mat3
  {
    Mat3(Vec3(m.cos(th), 0.0, m.sin(th)),
         Vec3(0.0, 1.0, 0.0),
         Vec3(-m.sin(th), 0.0, m.cos(th)))
  }

  /** Rotation by `th` about the x axis. */
  function RotX(m: MathLib, th: real): Mat3
  {
    Mat3(Vec3(1.0, 0.0, 0.0),
         Vec3(0.0, m.cos(th), -m.sin(th)),
         Vec3(0.0, m.sin(th), m.cos(th)))
  }

  /** `R_cone = np.dot(R_y, R_x)` with `rot_y = tan(eye_x / eye_z)` and
      `rot_x = tan(eye_y / eye_z) + pi`, written out entry by entry. */
  function ConeRotation(m: MathLib, e: Vec3): Mat3
    requires e.z != 0.0
  {
    var ty := m.tan(e.x / e.z);
    var tx := m.tan(e.y / e.z) + Pi;
    Mat3(Vec3(m.cos(ty), m.sin(ty) * m.sin(tx), m.sin(ty) * m.cos(tx)),
         Vec3(0.0, m.cos(tx), -m.sin(tx)),
         Vec3(-m.sin(ty), m.cos(ty) * m.sin(tx), m.cos(ty) * m.cos(tx)))
  }

  /** The written-out `R_cone` is the product of the rotation about y by the rotation
      about x; in particular its middle row is that of the rotation about x. */
  lemma ConeRotationProduct(m: MathLib, e: Vec3)
    requires e.z != 0.0
    ensures ConeRotation(m, e) == MatMul(RotY(m, m.tan(e.x / e.z)), RotX(m, m.tan(e.y / e.z) + Pi))
    ensures ConeRotation(m, e).r1 == RotX(m, m.tan(e.y / e.z) + Pi).r1
  {
  }

  // ---------------------------------------------------------------------------
  // The gaze cone test

  /** The angle of the cone: half the 1.5 degree width of the fovea. */
  function ConeAngle(): real
  {
    Radians(0.75)
  }

  /** `r_2 = tan(angle) ** 2`. */
  function ConeRadius2(m: MathLib): real
  {
    m.tan(ConeAngle()) * m.tan(ConeAngle())
  }

  /** `cone_r = cone_len * tan(angle)`: the radius of the cone at depth `len`. */
  function ConeRadiusAt(m: MathLib, len: real): real
  {
    len * m.tan(ConeAngle())
  }

  /** A point of the cloud in the cone frame: rotated by `R`, shifted by `-t`, then
      rotated by `R_cone`. */
  function ConeFrame(rot: Mat3, t: Vec3, rc: Mat3, p: Vec3): Vec3
  {
    Apply(rc, Sub(Apply(rot, p), t))
  }

  /** Every point of the cloud in the cone frame. */
  function ConePoints(rot: Mat3, t: Vec3, rc: Mat3, pts: seq<Vec3>): (qs: seq<Vec3>)
    ensures |qs| == |pts|
    ensures forall i | 0 <= i < |pts| :: qs[i] == ConeFrame(rot, t, rc, pts[i])
  {
    seq(|pts|, i requires 0 <= i < |pts| => ConeFrame(rot, t, rc, pts[i]))
  }

  /** The strict quadric test `z^2 - x^2 / r_2 - y^2 / r_2 > 0`. */
  predicate InCone(q: Vec3, r2: real)
    requires r2 != 0.0
  {
    q.z * q.z - q.x * q.x / r2 - q.y * q.y / r2 > 0.0
  }

  /** The record kept for point `i`. */
  function HitOf(m: MathLib, q: Vec3, i: nat): Hit
  {
    Hit(q, i, m.sqrt(q.x * q.x + q.y * q.y + q.z * q.z))
  }

  /** The records the test loop appends for the first `n` points, in point order. */
  function Hits(m: MathLib, r2: real, qs: seq<Vec3>, n: nat): seq<Hit>
    requires r2 != 0.0 && n <= |qs|
  {
    if n == 0 then []
    else Hits(m, r2, qs, n - 1) + (if InCone(qs[n - 1], r2) then [HitOf(m, qs[n - 1], n - 1)] else [])
  }

  /** The test keeps exactly the points that pass the quadric test, each once, in the
      order of the point array. */
  lemma {:induction false} HitsExact(m: MathLib, r2: real, qs: seq<Vec3>, n: nat)
    requires r2 != 0.0 && n <= |qs|
    ensures forall k | 0 <= k < |Hits(m, r2, qs, n)| ::
      var h := Hits(m, r2, qs, n)[k];
      h.index < n && InCone(qs[h.index], r2) && h == HitOf(m, qs[h.index], h.index)
    ensures forall k, l | 0 <= k < l < |Hits(m, r2, qs, n)| ::
      Hits(m, r2, qs, n)[k].index < Hits(m, r2, qs, n)[l].index
    ensures forall i | 0 <= i < n && InCone(qs[i], r2) ::
      exists k :: 0 <= k < |Hits(m, r2, qs, n)| && Hits(m, r2, qs, n)[k].index == i
  {
    if n > 0 {
      HitsExact(m, r2, qs, n - 1);
      var prev := Hits(m, r2, qs, n - 1);
      var hs := Hits(m, r2, qs, n);
      assert hs[..|prev|] == prev;
      forall i | 0 <= i < n && InCone(qs[i], r2)
        ensures exists k :: 0 <= k < |hs| && hs[k].index == i
      {
        if i < n - 1 {
          var k :| 0 <= k < |prev| && prev[k].index == i;
          assert hs[k] == prev[k];
        } else {
          assert hs[|hs| - 1].index == i;
        }
      }
    }
  }

  /** Python's `sorted(..., key=lambda point: point[2])`: comparison of distances. */
  function ByDist(): (Hit, Hit) -> bool
  {
    (a: Hit, b: Hit) => a.dist <= b.dist
  }

  lemma ByDistPreorder()
    ensures TotalPreorder(ByDist())
  {
  }

  /** `inside_cone` after the sort is ordered by distance, holds the same records, and
      keeps records at equal distances in the order they were found. */
  lemma SortedHits(s: seq<Hit>)
    ensures Sorted(Sort(s, ByDist()), ByDist())
    ensures multiset(Sort(s, ByDist())) == multiset(s)
    ensures forall y :: Class(Sort(s, ByDist()), y, ByDist()) == Class(s, y, ByDist())
  {
    ByDistPreorder();
    SortSorted(s, ByDist());
    forall y { SortStable(s, y, ByDist()); }
  }

  /** `cone_len`: the distance of the middle record (index `len / 2`), or 0.2. */
  function ConeLength(s: seq<Hit>): real
  {
    if |s| > 0 then s[|s| / 2].dist else DefaultConeLength
  }

  /** On a list sorted by distance, `cone_len` is a median: no record before the middle
      is farther and none after it is nearer. */
  lemma ConeLengthMedian(s: seq<Hit>)
    requires |s| > 0 && Sorted(s, ByDist())
    ensures forall k | 0 <= k <= |s| / 2 :: s[k].dist <= ConeLength(s)
    ensures forall k | |s| / 2 <= k < |s| :: ConeLength(s) <= s[k].dist
  {
    forall k | 0 <= k < |s| / 2 ensures s[k].dist <= ConeLength(s) {
      assert ByDist()(s[k], s[|s| / 2]);
    }
    forall k | |s| / 2 < k < |s| ensures ConeLength(s) <= s[k].dist {
      assert ByDist()(s[|s| / 2], s[k]);
    }
  }

  /** Every record names a colour row with at least three entries (else the colour
      lookup raises `IndexError`). */
  predicate ColorsAvailable(s: seq<Hit>, colors: seq<seq<real>>)
  {
    forall k | 0 <= k < |s| :: s[k].index < |colors| && |colors[s[k].index]| >= 3
  }

  /** The vertex drawn for a record: its cone-frame position, the usual normal, and its
      colour row scaled from 0..255 to 0..1 with alpha 1. */
  function ConeVertex(h: Hit, colors: seq<seq<real>>): (v: Vertex)
    requires h.index < |colors| && |colors[h.index]| >= 3
    ensures |v.color| == 4 && v.color[3] == 1.0
    ensures forall j | 0 <= j < 3 :: v.color[j] * 255.0 == colors[h.index][j]
  {
    var c := colors[h.index];
    Vertex(h.point, UpNormal, [c[0] / 255.0, c[1] / 255.0, c[2] / 255.0, 1.0])
  }

  // ---------------------------------------------------------------------------
  // The camera

  class Camera {
    /** The 5x3 block, flattened. */
    const C: array<real>
    /** The rotation `R`, rows 1 to 3 of the block as the constructor leaves it. */
    const R: Mat3
    /** The translation `t`, the last row of the block as the constructor leaves it. */
    const t: Vec3
    /** The projection matrix; nothing in the program assigns it. */
    var P: Option<Mat34>
    var img: Option<Image>
    var frameNum: Option<int>
    var keyframe: bool
    var imgScale: real
    var imgW: Option<real>
    var imgH: Option<real>
    var imgZ: Option<real>
    var imgOrigin: Option<Vec3>
    var pyramidShow: bool
    var coneShow: bool
    var eye: Option<Gaze>
    var a: Option<real>
    var c: Option<Vec3>
    var f: Option<Vec3>
    var fx: real
    var fy: real
    var wS: Option<real>
    var pyramid: Option<seq<Vertex>>
    var up: Vec3
    var insideCone: seq<Hit>
    var coneLen: real
    var RGl: Mat4
    /** `eye_point`; `None` also stands for "not yet computed". */
    var eyePoint: Option<Vertex>
    /** `R_cone`, the 3x3 array `rotation_matrix_gl` negates in place after it is stored. */
    var RCone: Option<array<real>>
    var RConeGl: Option<Mat4>
    var insideConeVerts: Option<seq<Vertex>>
    var coneR: Option<real>

    ghost predicate Valid()
      reads this`RCone
    {
      && C.Length == 15
      && (RCone.Some? ==> RCone.value.Length == 9 && RCone.value != C)
    }

    /** `R_cone` as a matrix. */
    function ConeMatrix(): Mat3
      requires Valid() && RCone.Some?
      reads this`RCone, RCone.value
    {
      MatAt(RCone.value[..], 0)
    }

    /** `Camera(C, img, frame_num, is_keyframe, c, f, w_s)`. `is_keyframe` is accepted
        and ignored: every camera is marked as a keyframe. */
    constructor (block: array<real>, img: Option<Image>, frameNum: Option<int>,
                 isKeyframe: bool, c: Option<Vec3>, f: Option<Vec3>, wS: Option<real>)
      requires block.Length == 15
      modifies block
      ensures Valid() && C == block
      ensures block[..] == Constructed(old(block[..]))
      ensures fx == fy == old(block[0])
      ensures R == Rot(C[..]) && t == Trans(C[..])
      ensures RGl == GlLayout(R)
      ensures P == None && this.img == img && this.frameNum == frameNum && keyframe
      ensures imgScale == 0.00001
      ensures imgW == None && imgH == None && imgZ == None && imgOrigin == None
      ensures pyramidShow && !coneShow
      ensures eye == None && a == None && this.c == c && this.f == f && this.wS == wS
      ensures pyramid == None && up == UpNormal
      ensures insideCone == [] && coneLen == 0.0
      ensures eyePoint == None && RCone == None && RConeGl == None
      ensures insideConeVerts == None && coneR == None
    {
      C := block;
      P := None;
      this.img := img;
      this.frameNum := frameNum;
      keyframe := true;
      imgScale := 0.00001;
      imgW := None;
      imgH := None;
      imgZ := None;
      imgOrigin := None;
      pyramidShow := true;
      coneShow := false;
      eye := None;
      a := None;
      var gl := PrepareBlock(block);
      this.c := c;
      this.f := f;
      fx := block[0];
      fy := block[0];
      this.wS := wS;
      pyramid := None;
      up := UpNormal;
      insideCone := [];
      coneLen := 0.0;
      eyePoint := None;
      RCone := None;
      RConeGl := None;
      insideConeVerts := None;
      coneR := None;
      RGl := gl;
      R := Rot(block[..]);
      t := Trans(block[..]);
    }

    /** `project(X)`: `P X` with every coordinate divided by the third. `None` when `P`
        is unset, which is always the case in the program, and, in the model, when the
        third coordinate is zero, where numpy would give inf or nan. */
    method Project(X: Vec4) returns (x: Option<Vec3>)
      ensures P.None? ==> x.None?
      ensures P.Some? ==>
        var h := ApplyP(P.value, X);
        && (x.Some? <==> h.z != 0.0)
        && (x.Some? ==> x.value == Vec3(h.x / h.z, h.y / h.z, 1.0))
    {
      if P.None? {
        return None;
      }
      var h := ApplyP(P.value, X);
      if h.z == 0.0 {
        return None;
      }
      var v := new real[3] [h.x, h.y, h.z];
      for i := 0 to 3
        invariant v[2] == (if i == 3 then 1.0 else h.z)
        invariant forall j | 0 <= j < i && j < 2 :: v[j] == [h.x, h.y][j] / h.z
        invariant forall j | i <= j < 2 :: v[j] == [h.x, h.y][j]
      {
        assert i == 2 ==> v[2] / v[2] == 1.0;
        v[i] := v[i] / v[2];
      }
      return Some(Vec3(v[0], v[1], v[2]));
    }

    /** `center()`: the stored centre; without one the fallback factors `P`, which is
        never set, so it fails. */
    method Center() returns (r: Option<Vec3>)
      ensures c.Some? ==> r == c
      ensures c.None? ==> r.None?
    {
      if c.Some? {
        return c;
      }
      return None;
    }

    /** The gaze branch of `make_pyramid()`: stores the gaze vertex, then, unless the
        depth of the gaze point is zero, stores `R_cone` and negates it in place through
        `rotation_matrix_gl`. */
    method MakeGaze(m: MathLib, fr: Frustum) returns (ok: bool)
      requires Valid() && Viewable(m, fr)
      modifies this`eyePoint, this`RCone, this`RConeGl
      ensures Valid()
      ensures GazeStored(m, fr, eye, R, t, eyePoint, RConeGl, ok)
      ensures eye.None? || !ok ==> unchanged(`RCone, `RConeGl)
      ensures eye.Some? && ok ==>
        RCone.Some? && fresh(RCone.value) && RCone.value[..] == ConeStorage(m, fr, eye.value)
    {
      if eye.None? {
        eyePoint := None;
        return true;
      }
      var e := GazePoint(m, fr, eye.value);
      GazeDepthZero(m, fr, eye.value);
      eyePoint := Some(Vertex(ToWorld(e, R, t), UpNormal, EyeColor));
      if e.z == 0.0 {
        return false;
      }
      var cone := new real[9];
      var rc := Flatten(ConeRotation(m, e));
      forall i | 0 <= i < 9 {
        cone[i] := rc[i];
      }
      assert cone[..] == rc;
      RCone := Some(cone);
      var gl := RotationMatrixGl(cone, 0);
      RConeGl := Some(gl);
      NegatedStorage(ConeRotation(m, e));
      assert cone[..] == Flatten(NegMat(ConeRotation(m, e)));
      return true;
    }

    /** `make_pyramid()`; `ok` is false where the source raises. */
    method MakePyramid(m: MathLib) returns (ok: bool)
      requires Valid()
      modifies this`imgZ, this`eyePoint, this`RCone, this`RConeGl, this`pyramid, this`imgOrigin
      modifies this`imgW, this`imgH, this`a, this`up, this`f, this`c
      ensures Valid()
      ensures
        var fr := if img.Some? then FrustumOf(m, img.value, imgScale, fx) else None;
        && (fr.None? ==> !ok && unchanged(this))
        && (fr.Some? ==>
              && imgZ == Some(fr.value.z)
              && GazeStored(m, fr.value, eye, R, t, eyePoint, RConeGl, ok)
              && (eye.None? || !ok ==> unchanged(`RCone, `RConeGl))
              && (eye.Some? && ok ==>
                    RCone.Some? && fresh(RCone.value) && RCone.value[..] == ConeStorage(m, fr.value, eye.value))
              && (!ok ==> unchanged(`pyramid, `imgOrigin, `imgW, `imgH, `a, `up, `f, `c))
              && (ok ==> HoldsPyramid(fr.value)))
    {
      if img.None? {
        return false;
      }
      var frame := FrustumOf(m, img.value, imgScale, fx);
      if frame.None? {
        return false;
      }
      ok := BuildPyramid(m, frame.value);
    }

    /** `make_pyramid()` once the frustum `fr` is known. */
    method BuildPyramid(m: MathLib, fr: Frustum) returns (ok: bool)
      requires Valid() && Viewable(m, fr)
      modifies this`imgZ, this`eyePoint, this`RCone, this`RConeGl, this`pyramid, this`imgOrigin
      modifies this`imgW, this`imgH, this`a, this`up, this`f, this`c
      ensures Valid()
      ensures imgZ == Some(fr.z)
      ensures GazeStored(m, fr, eye, R, t, eyePoint, RConeGl, ok)
      ensures eye.None? || !ok ==> unchanged(`RCone, `RConeGl)
      ensures eye.Some? && ok ==>
        RCone.Some? && fresh(RCone.value) && RCone.value[..] == ConeStorage(m, fr, eye.value)
      ensures !ok ==> unchanged(`pyramid, `imgOrigin, `imgW, `imgH, `a, `up, `f, `c)
      ensures ok ==> HoldsPyramid(fr)
    {
      imgZ := Some(fr.z);
      ok := MakeGaze(m, fr);
      if ok {
        StorePyramid(fr);
      }
    }

    /** The state `make_pyramid()` leaves for the frustum `fr`: the wireframe, the image
        corner `p4` where the picture is drawn, the frustum extents and angle, and the
        world up direction, focal point and centre. */
    ghost predicate HoldsPyramid(fr: Frustum)
      reads this`pyramid, this`imgOrigin, this`imgW, this`imgH, this`a, this`up, this`f, this`c
    {
      var ps := PyramidPoints(fr, R, t);
      && pyramid == Some(PyramidVertices(ps))
      && imgOrigin == Some(ps[4])
      && imgW == Some(fr.w) && imgH == Some(fr.h)
      && a == Some(fr.angle)
      && up == ToWorld(UpNormal, R, t)
      && f == Some(ToWorld(Vec3(0.0, 0.0, -fr.z), R, t))
      && c == Some(RowTimes(t, R))
    }

    /** The assignments that end `make_pyramid()`. */
    method StorePyramid(fr: Frustum)
      modifies this`pyramid, this`imgOrigin, this`imgW, this`imgH, this`a, this`up, this`f, this`c
      ensures HoldsPyramid(fr)
    {
      var ps := PyramidPoints(fr, R, t);
      pyramid := Some(PyramidVertices(ps));
      imgOrigin := Some(ps[4]);
      imgW := Some(fr.w);
      imgH := Some(fr.h);
      a := Some(fr.angle);
      up := ToWorld(UpNormal, R, t);
      f := Some(ToWorld(Vec3(0.0, 0.0, -fr.z), R, t));
      c := Some(RowTimes(t, R));
    }

    /** The test loop of `cone_intersect`: appends the record of every cone-frame point
        that passes the quadric test, in point order. */
    method CollectHits(m: MathLib, r2: real, qs: seq<Vec3>)
      requires r2 != 0.0
      modifies this`insideCone
      ensures insideCone == old(insideCone) + Hits(m, r2, qs, |qs|)
    {
      var i := 0;
      while i < |qs|
        invariant 0 <= i <= |qs|
        invariant insideCone == old(insideCone) + Hits(m, r2, qs, i)
      {
        var q := qs[i];
        if q.z * q.z - q.x * q.x / r2 - q.y * q.y / r2 > 0.0 {
          insideCone := insideCone + [HitOf(m, q, i)];
        }
        i := i + 1;
      }
    }

    /** The vertex list built from the sorted records. */
    method ConeVertices(colors: seq<seq<real>>) returns (v: seq<Vertex>)
      requires ColorsAvailable(insideCone, colors)
      ensures |v| == |insideCone|
      ensures forall k | 0 <= k < |insideCone| :: v[k] == ConeVertex(insideCone[k], colors)
    {
      v := [];
      for k := 0 to |insideCone|
        invariant |v| == k
        invariant forall j | 0 <= j < k :: v[j] == ConeVertex(insideCone[j], colors)
      {
        v := v + [ConeVertex(insideCone[k], colors)];
      }
    }

    /** The part of `cone_intersect` after the sort: the vertex list (whose colour lookup
        raises unless every record names a colour row of three entries), the median
        length and the radius at that length. */
    method ConeSummary(m: MathLib, colors: seq<seq<real>>) returns (ok: bool)
      modifies this`insideConeVerts, this`coneLen, this`coneR
      ensures ok <==> ColorsAvailable(insideCone, colors)
      ensures !ok ==> unchanged(`insideConeVerts, `coneLen, `coneR)
      ensures ok ==>
        && insideConeVerts.Some?
        && |insideConeVerts.value| == |insideCone|
        && (forall k | 0 <= k < |insideCone| :: insideConeVerts.value[k] == ConeVertex(insideCone[k], colors))
        && coneLen == ConeLength(insideCone)
        && coneR == Some(ConeRadiusAt(m, coneLen))
    {
      if !(forall k | 0 <= k < |insideCone| :: insideCone[k].index < |colors| && |colors[insideCone[k].index]| >= 3) {
        return false;
      }
      var v := ConeVertices(colors);
      insideConeVerts := Some(v);
      if |insideCone| > 0 {
        coneLen := insideCone[|insideCone| / 2].dist;
      } else {
        coneLen := DefaultConeLength;
      }
      coneR := Some(ConeRadiusAt(m, coneLen));
      return true;
    }

    /** `cone_intersect(pts, colors)`; `ok` is false where the source raises. */
    method ConeIntersect(m: MathLib, pts: seq<Vec3>, colors: seq<seq<real>>) returns (ok: bool)
      requires Valid()
      requires ConeRadius2(m) != 0.0
      modifies this`insideCone, this`insideConeVerts, this`coneLen, this`coneR
      ensures old(RCone).None? ==> !ok && unchanged(`insideCone, `insideConeVerts, `coneLen, `coneR)
      ensures old(RCone).Some? ==>
        insideCone == Sort(old(insideCone) + Hits(m, ConeRadius2(m), ConePoints(R, t, ConeMatrix(), pts), |pts|), ByDist())
      ensures ok <==> RCone.Some? && ColorsAvailable(insideCone, colors)
      ensures !ok ==> unchanged(`insideConeVerts, `coneLen, `coneR)
      ensures ok ==>
        && insideConeVerts.Some?
        && |insideConeVerts.value| == |insideCone|
        && (forall k | 0 <= k < |insideCone| :: insideConeVerts.value[k] == ConeVertex(insideCone[k], colors))
        && coneLen == ConeLength(insideCone)
        && coneR == Some(ConeRadiusAt(m, coneLen))
    {
      if RCone.None? {
        return false;
      }
      var r2 := ConeRadius2(m);
      CollectHits(m, r2, ConePoints(R, t, ConeMatrix(), pts));
      insideCone := Sort(insideCone, ByDist());
      ok := ConeSummary(m, colors);
    }

    /** `_get_img_scale()`. */
    function GetImgScale(): (s: real)
      reads this
      ensures s == imgScale
    {
      imgScale
    }

    /** The pyramid can be rebuilt at scale `value`: the camera has an image, its
        frustum at that scale exists, and with a gaze the image has a width. */
    predicate Rebuildable(m: MathLib, value: real)
      reads this`img, this`fx, this`eye
    {
      && img.Some? && FrustumOf(m, img.value, value, fx).Some?
      && (eye.None? || FrustumOf(m, img.value, value, fx).value.w != 0.0)
    }

    /** `_set_img_scale(value)`: stores the scale, then rebuilds the pyramid for the
        frustum at that scale, with everything `make_pyramid()` leaves. */
    method SetImgScale(m: MathLib, value: real) returns (ok: bool)
      requires Valid()
      modifies this`imgScale, this`imgZ, this`eyePoint, this`RCone, this`RConeGl, this`pyramid
      modifies this`imgOrigin, this`imgW, this`imgH, this`a, this`up, this`f, this`c
      ensures Valid()
      ensures imgScale == value
      ensures ok <==> Rebuildable(m, value)
      ensures ok ==> HoldsPyramid(FrustumOf(m, img.value, value, fx).value)
      ensures
        var fr := if img.Some? then FrustumOf(m, img.value, value, fx) else None;
        && (fr.None? ==> unchanged(`imgZ, `eyePoint, `RCone, `RConeGl, `pyramid, `imgOrigin)
                         && unchanged(`imgW, `imgH, `a, `up, `f, `c))
        && (fr.Some? ==>
              && imgZ == Some(fr.value.z)
              && GazeStored(m, fr.value, eye, R, t, eyePoint, RConeGl, ok)
              && (eye.None? || !ok ==> unchanged(`RCone, `RConeGl))
              && (eye.Some? && ok ==>
                    RCone.Some? && fresh(RCone.value) && RCone.value[..] == ConeStorage(m, fr.value, eye.value))
              && (!ok ==> unchanged(`pyramid, `imgOrigin, `imgW, `imgH, `a, `up, `f, `c)))
    {
      imgScale := value;
      ok := MakePyramid(m);
    }
  }

  /** `np.dot(P, X)`. */
  function ApplyP(p: Mat34, x: Vec4): Vec4
  {
    Vec4(p.r0.x * x.x + p.r0.y * x.y + p.r0.z * x.z + p.r0.w * x.w,
         p.r1.x * x.x + p.r1.y * x.y + p.r1.z * x.z + p.r1.w * x.w,
         p.r2.x * x.x + p.r2.y * x.y + p.r2.z * x.z + p.r2.w * x.w,
         0.0)
  }
}
