/** The point manager of the 3D browser (`points.py`): the dense point cloud read from a
    PMVS `.ply` file, its vertex buffer, its axis-aligned bounding box and the offset
    that recentres it.

    A file is given as its lines. Python's `float` on one token is a parameter `num`,
    `None` where it raises; numpy's `float32` rounding is not modelled. */
module PointCloud {
  import opened Vectors
  import opened Geometry
  import opened Optional
  import opened Text

  /** The number of header lines `load_ply` skips; `load_sparse_ply` reads twelve of
      them and starts its data at the same line. */
  const HeaderLines: nat := 13
  const SparseHeaderLines: nat := 12

  // ---------------------------------------------------------------------------
  // Token rows and numpy's column slices

  /** The numbers of the tokens `ws`, or `None` if one of them is not a number. */
  function ParseRow(num: string -> Option<real>, ws: seq<string>): (r: Option<seq<real>>)
    ensures r.Some? <==> forall k | 0 <= k < |ws| :: num(ws[k]).Some?
    ensures r.Some? ==> |r.value| == |ws| && forall k | 0 <= k < |ws| :: r.value[k] == num(ws[k]).value
  {
    if ws == [] then Some([])
    else
      var init := ParseRow(num, ws[..|ws| - 1]);
      var last := num(ws[|ws| - 1]);
      if init.None? || last.None? then None else Some(init.value + [last.value])
  }

  /** `[i.split() for i in lines]`, converted to numbers. */
  function ParseRows(num: string -> Option<real>, lines: seq<string>): (r: Option<seq<seq<real>>>)
    ensures r.Some? <==> forall k | 0 <= k < |lines| :: ParseRow(num, Split(lines[k])).Some?
    ensures r.Some? ==>
      && |r.value| == |lines|
      && forall k | 0 <= k < |lines| :: r.value[k] == ParseRow(num, Split(lines[k])).value
  {
    if lines == [] then Some([])
    else
      var init := ParseRows(num, lines[..|lines| - 1]);
      var last := ParseRow(num, Split(lines[|lines| - 1]));
      if init.None? || last.None? then None else Some(init.value + [last.value])
  }

  /** The rows form a two-dimensional array: at least one row (an empty list gives a
      one-dimensional array, on which the column slices raise) and all of one width
      (ragged rows make `np.asarray` raise). */
  predicate IsTable(rows: seq<seq<real>>)
  {
    |rows| > 0 && forall k | 0 <= k < |rows| :: |rows[k]| == |rows[0]|
  }

  /** `np.asarray([i.split() for i in lines[skip:]], dtype='f4')`, or `None` where it
      or the column slicing after it raises. */
  function ReadTable(num: string -> Option<real>, lines: seq<string>, skip: nat): (t: Option<seq<seq<real>>>)
    ensures t.Some? <==>
      |lines| > skip && ParseRows(num, lines[skip..]).Some? && IsTable(ParseRows(num, lines[skip..]).value)
    ensures t.Some? ==> t.value == ParseRows(num, lines[skip..]).value
  {
    if |lines| <= skip then None
    else
      var rows := ParseRows(num, lines[skip..]);
      if rows.Some? && IsTable(rows.value) then rows else None
  }

  /** `a[:, lo:hi]`: every row sliced. */
  function Columns(rows: seq<seq<real>>, lo: nat, hi: nat): (c: seq<seq<real>>)
    ensures |c| == |rows|
    ensures forall k | 0 <= k < |rows| :: c[k] == Slice(rows[k], lo, hi)
  {
    seq(|rows|, k requires 0 <= k < |rows| => Slice(rows[k], lo, hi))
  }

  /** The three slices `load_ply` takes split every row without losing or repeating a
      number: positions, normals and colours put back together give the row. */
  lemma PlyColumnsPartition(rows: seq<seq<real>>, k: nat)
    requires k < |rows|
    ensures var w := |rows[k]|;
      Columns(rows, 0, 3)[k] + Columns(rows, 3, 6)[k] + Columns(rows, 6, w)[k] == rows[k]
  {
    var r := rows[k];
    if |r| <= 3 {
      assert Slice(r, 0, 3) == r;
    } else if |r| <= 6 {
      assert Slice(r, 0, 3) + Slice(r, 3, 6) == r[..3] + r[3..];
    } else {
      assert Slice(r, 0, 3) + Slice(r, 3, 6) + Slice(r, 6, |r|) == r[..3] + r[3..6] + r[6..];
    }
  }

  /** The two slices `load_sparse_ply` takes are the first six numbers of every row. */
  lemma SparseColumnsPrefix(rows: seq<seq<real>>, k: nat)
    requires k < |rows|
    ensures var r := rows[k];
      Columns(rows, 0, 3)[k] + Columns(rows, 3, 6)[k] == r[..if |r| < 6 then |r| else 6]
  {
    var r := rows[k];
    if 3 < |r| {
      assert r[..3] + r[3..if |r| < 6 then |r| else 6] == r[..if |r| < 6 then |r| else 6];
    }
  }

  /** A token `int()` accepts: an optional sign, then decimal digits. */
  predicate IsIntLiteral(w: string)
  {
    if |w| > 0 && (w[0] == '+' || w[0] == '-') then |w| > 1 && IsDigits(w[1..])
    else |w| > 0 && IsDigits(w)
  }

  /** `int(header[4].split()[2])` of `load_sparse_ply` succeeds: the header has a fifth
      line whose third token is an integer. */
  predicate VertexCountReadable(lines: seq<string>)
  {
    |lines| > 4 && |Split(lines[4])| > 2 && IsIntLiteral(Split(lines[4])[2])
  }

  // ---------------------------------------------------------------------------
  // Vertices

  /** A row of three numbers as a vector. */
  function RowVec(r: seq<real>): (v: Vec3)
    requires |r| == 3
    ensures [v.x, v.y, v.z] == r
  {
    Vec3(r[0], r[1], r[2])
  }

  /** `cr / 255`: every entry divided by 255. */
  function Div255(r: seq<real>): (s: seq<real>)
    ensures |s| == |r|
    ensures forall j | 0 <= j < |r| :: s[j] * 255.0 == r[j]
  {
    seq(|r|, j requires 0 <= j < |r| => r[j] / 255.0)
  }

  /** The number of pairs `zip(f_pts, colors)` produces. */
  function ZipLength(pts: seq<seq<real>>, cs: seq<seq<real>>): (n: nat)
    ensures n <= |pts| && n <= |cs| && (n == |pts| || n == |cs|)
  {
    if |pts| <= |cs| then |pts| else |cs|
  }

  /** A row numpy can store in a three-entry record field: three entries, or one entry,
      which it broadcasts. */
  predicate Fits3(r: seq<real>)
  {
    |r| == 1 || |r| == 3
  }

  /** The three entries a record field holds for the row `r`: the row itself, or its
      single entry repeated. */
  function Spread3(r: seq<real>): (s: seq<real>)
    requires Fits3(r)
    ensures |s| == 3
    ensures |r| == 3 ==> s == r
    ensures |r| == 1 ==> forall j | 0 <= j < 3 :: s[j] == r[0]
  {
    if |r| == 1 then [r[0], r[0], r[0]] else r
  }

  /** Every zipped pair fits the vertex record: its point and colour rows have three
      entries or one; any other row makes the conversion to the record array raise. */
  predicate FitsRecords(pts: seq<seq<real>>, cs: seq<seq<real>>)
  {
    forall k | 0 <= k < ZipLength(pts, cs) :: Fits3(pts[k]) && Fits3(cs[k])
  }

  /** The vertex of point `k`: its position, the normal `(0, 1, 0)` and its colour
      scaled from `0..255` down to `0..1`, each spread over three entries. */
  function PointVertex(pts: seq<seq<real>>, cs: seq<seq<real>>, k: nat): Vertex
    requires FitsRecords(pts, cs) && k < ZipLength(pts, cs)
  {
    Vertex(RowVec(Spread3(pts[k])), UpNormal, Spread3(Div255(cs[k])))
  }

  /** Colours given in `0..255` become colours in `0..1`. */
  lemma PointColorRange(pts: seq<seq<real>>, cs: seq<seq<real>>, k: nat)
    requires FitsRecords(pts, cs) && k < ZipLength(pts, cs)
    requires forall j | 0 <= j < |cs[k]| :: 0.0 <= cs[k][j] <= 255.0
    ensures forall j | 0 <= j < 3 :: 0.0 <= PointVertex(pts, cs, k).color[j] <= 1.0
  {
    var d := Div255(cs[k]);
    forall j | 0 <= j < |d|
      ensures 0.0 <= d[j] <= 1.0
    {
      assert d[j] * 255.0 == cs[k][j];
    }
  }

  // ---------------------------------------------------------------------------
  // The bounding box

  /** Column `j` of the rows. */
  function Column(pts: seq<seq<real>>, j: nat): (col: seq<real>)
    requires forall k | 0 <= k < |pts| :: j < |pts[k]|
    ensures |col| == |pts| && forall k | 0 <= k < |pts| :: col[k] == pts[k][j]
  {
    seq(|pts|, k requires 0 <= k < |pts| => pts[k][j])
  }

  /** `np.min`. */
  function Min(s: seq<real>): real
    requires |s| > 0
  {
    if |s| == 1 then s[0]
    else
      var m := Min(s[..|s| - 1]);
      if s[|s| - 1] < m then s[|s| - 1] else m
  }

  /** `np.max`. */
  function Max(s: seq<real>): real
    requires |s| > 0
  {
    if |s| == 1 then s[0]
    else
      var m := Max(s[..|s| - 1]);
      if s[|s| - 1] > m then s[|s| - 1] else m
  }

  /** The sum of the entries. */
  function Sum(s: seq<real>): real
  {
    if s == [] then 0.0 else Sum(s[..|s| - 1]) + s[|s| - 1]
  }

  /** `np.mean`. */
  function Mean(s: seq<real>): real
    requires |s| > 0
  {
    Sum(s) / |s| as real
  }

  /** The minimum is an entry, and no entry is below it; likewise for the maximum. */
  lemma {:induction false} MinMaxBounds(s: seq<real>)
    requires |s| > 0
    ensures forall k | 0 <= k < |s| :: Min(s) <= s[k] <= Max(s)
    ensures exists k | 0 <= k < |s| :: s[k] == Min(s)
    ensures exists k | 0 <= k < |s| :: s[k] == Max(s)
  {
    if |s| > 1 {
      var init := s[..|s| - 1];
      MinMaxBounds(init);
      assert forall k | 0 <= k < |init| :: s[k] == init[k];
      var i :| 0 <= i < |init| && init[i] == Min(init);
      var j :| 0 <= j < |init| && init[j] == Max(init);
      assert s[i] == Min(init) && s[j] == Max(init);
    }
  }

  /** The sum lies between `|s|` times the minimum and `|s|` times the maximum. */
  lemma {:induction false} SumBounds(s: seq<real>)
    requires |s| > 0
    ensures |s| as real * Min(s) <= Sum(s) <= |s| as real * Max(s)
  {
    if |s| > 1 {
      var init := s[..|s| - 1];
      SumBounds(init);
      var x := s[|s| - 1];
      assert Sum(s) == Sum(init) + x;
      assert |s| as real == |init| as real + 1.0;
      SumStep(|init| as real, Sum(init), Min(init), Max(init), x, Min(s), Max(s));
    }
  }

  /** One more entry `x` between the new bounds `lo` and `hi` keeps the sum between
      the count times each bound. */
  lemma SumStep(n: real, sum: real, min: real, max: real, x: real, lo: real, hi: real)
    requires 0.0 <= n && n * min <= sum <= n * max
    requires lo <= min && lo <= x && max <= hi && x <= hi
    ensures (n + 1.0) * lo <= sum + x <= (n + 1.0) * hi
  {
    MulMonotone(n, lo, min);
    MulMonotone(n, max, hi);
    Distribute(n, lo);
    Distribute(n, hi);
  }

  lemma MulMonotone(n: real, a: real, b: real)
    requires 0.0 <= n && a <= b
    ensures n * a <= n * b
  {
  }

  lemma Distribute(n: real, a: real)
    ensures (n + 1.0) * a == n * a + a
  {
  }

  /** Dividing bounds on `n` times a number by `n`. */
  lemma DivideBounds(sum: real, n: real, lo: real, hi: real)
    requires 0.0 < n && n * lo <= sum <= n * hi
    ensures lo <= sum / n <= hi
  {
    assert n * (sum / n) == sum;
  }

  /** The mean of the coordinates lies between their minimum and their maximum. */
  lemma MeanBetween(s: seq<real>)
    requires |s| > 0
    ensures Min(s) <= Mean(s) <= Max(s)
  {
    SumBounds(s);
    DivideBounds(Sum(s), |s| as real, Min(s), Max(s));
  }

  /** A point cloud `make_AABB` can measure: at least one point (the minimum of an empty
      column raises) and three coordinates per point. */
  predicate IsCloud(pts: seq<seq<real>>)
  {
    |pts| > 0 && forall k | 0 <= k < |pts| :: |pts[k]| == 3
  }

  /** The corners of the box, per axis. */
  function Low(pts: seq<seq<real>>): Vec3
    requires IsCloud(pts)
  {
    Vec3(Min(Column(pts, 0)), Min(Column(pts, 1)), Min(Column(pts, 2)))
  }

  function High(pts: seq<seq<real>>): Vec3
    requires IsCloud(pts)
  {
    Vec3(Max(Column(pts, 0)), Max(Column(pts, 1)), Max(Column(pts, 2)))
  }

  /** `x <= v <= y` on every axis. */
  predicate Within(v: Vec3, lo: Vec3, hi: Vec3)
  {
    lo.x <= v.x <= hi.x && lo.y <= v.y <= hi.y && lo.z <= v.z <= hi.z
  }

  /** Every point lies in the box, and every face of the box touches a point. */
  lemma BoxEnclosesCloud(pts: seq<seq<real>>)
    requires IsCloud(pts)
    ensures forall k | 0 <= k < |pts| :: Within(RowVec(pts[k]), Low(pts), High(pts))
    ensures exists k | 0 <= k < |pts| :: pts[k][0] == Low(pts).x
    ensures exists k | 0 <= k < |pts| :: pts[k][1] == Low(pts).y
    ensures exists k | 0 <= k < |pts| :: pts[k][2] == Low(pts).z
    ensures exists k | 0 <= k < |pts| :: pts[k][0] == High(pts).x
    ensures exists k | 0 <= k < |pts| :: pts[k][1] == High(pts).y
    ensures exists k | 0 <= k < |pts| :: pts[k][2] == High(pts).z
  {
    MinMaxBounds(Column(pts, 0));
    MinMaxBounds(Column(pts, 1));
    MinMaxBounds(Column(pts, 2));
  }

  /** Corner `i` of the box: `p0`..`p3` go round the `z_max` face (`x_min, y_min`;
      `x_min, y_max`; `x_max, y_max`; `x_max, y_min`) and `p4`..`p7` repeat them on the
      `z_min` face. */
  function Corner(lo: Vec3, hi: Vec3, i: nat): (p: Vec3)
    requires i < 8
    ensures i < 4 ==> p.z == hi.z
    ensures 4 <= i ==> p.z == lo.z
    ensures p.x == (if i % 4 < 2 then lo.x else hi.x)
    ensures p.y == (if i % 4 == 1 || i % 4 == 2 then hi.y else lo.y)
  {
    var q := i % 4;
    Vec3(if q < 2 then lo.x else hi.x,
         if q == 1 || q == 2 then hi.y else lo.y,
         if i < 4 then hi.z else lo.z)
  }

  /** The face normals `n0`..`n5`: front, right, top, left, bottom, back. */
  const FaceNormals: seq<Vec3> := [Vec3(0.0, 0.0, 1.0), Vec3(1.0, 0.0, 0.0), Vec3(0.0, 1.0, 0.0),
                                   Vec3(-1.0, 0.0, 0.0), Vec3(0.0, -1.0, 0.0), Vec3(0.0, 0.0, -1.0)]

  /** The corner of each of the 24 vertices, four per face, in the order front, back,
      left, top, right, bottom. */
  const BoxCorners: seq<nat> := [0, 1, 2, 3, 4, 5, 6, 7, 0, 1, 5, 4, 1, 5, 6, 2, 3, 2, 6, 7, 0, 4, 7, 3]

  /** The normal of each face in that order. */
  const BoxFaceNormals: seq<nat> := [0, 5, 3, 2, 1, 4]

  /** `c[0]` of the source's colour is the number `1.0` (its parentheses do not make a
      tuple of tuples), which numpy spreads over the three colour entries. */
  const BoxColor: seq<real> := Spread3([1.0])

  /** Vertex `k` of the box: corner `BoxCorners[k]`, with the normal of face `k / 4`. */
  function BoxVertex(lo: Vec3, hi: Vec3, k: nat): Vertex
    requires k < 24
  {
    Vertex(Corner(lo, hi, BoxCorners[k]), FaceNormals[BoxFaceNormals[k / 4]], BoxColor)
  }

  /** The first `n` of the 24 box vertices. */
  function BoxVerticesUpTo(lo: Vec3, hi: Vec3, n: nat): (v: seq<Vertex>)
    requires n <= 24
    ensures |v| == n
    ensures forall k | 0 <= k < n :: v[k] == BoxVertex(lo, hi, k)
  {
    if n == 0 then [] else BoxVerticesUpTo(lo, hi, n - 1) + [BoxVertex(lo, hi, n - 1)]
  }

  /** `aabb_verts` for the box `[lo, hi]`. */
  function BoxVertices(lo: Vec3, hi: Vec3): seq<Vertex>
  {
    BoxVerticesUpTo(lo, hi, 24)
  }

  /** The vertex lies on the face its normal points out of: a normal along `+x` puts it
      on `x = hi.x`, one along `-x` on `x = lo.x`, and so on. */
  predicate OnOwnFace(v: Vertex, lo: Vec3, hi: Vec3)
  {
    && (v.normal.x == 1.0 ==> v.position.x == hi.x)
    && (v.normal.x == -1.0 ==> v.position.x == lo.x)
    && (v.normal.y == 1.0 ==> v.position.y == hi.y)
    && (v.normal.y == -1.0 ==> v.position.y == lo.y)
    && (v.normal.z == 1.0 ==> v.position.z == hi.z)
    && (v.normal.z == -1.0 ==> v.position.z == lo.z)
  }

  /** Each of the six faces carries one outward axis normal on its four vertices. */
  lemma BoxNormals(lo: Vec3, hi: Vec3)
    ensures var v := BoxVertices(lo, hi);
      && |v| == 24
      && forall k | 0 <= k < 24 :: v[k].normal == v[k / 4 * 4].normal && v[k].normal in FaceNormals
  {
    var v := BoxVertices(lo, hi);
    forall k | 0 <= k < 24
      ensures v[k].normal == v[k / 4 * 4].normal && v[k].normal in FaceNormals
    {
      assert k / 4 * 4 / 4 == k / 4;
    }
  }

  /** Every vertex is a corner of the box lying on the face its normal points out of. */
  lemma BoxOnFaces(lo: Vec3, hi: Vec3)
    requires lo.x <= hi.x && lo.y <= hi.y && lo.z <= hi.z
    ensures var v := BoxVertices(lo, hi);
      forall k | 0 <= k < 24 :: OnOwnFace(v[k], lo, hi) && Within(v[k].position, lo, hi)
  {
    var v := BoxVertices(lo, hi);
    forall k | 0 <= k < 24
      ensures OnOwnFace(v[k], lo, hi) && Within(v[k].position, lo, hi)
    {
      if k < 4 {
      } else if k < 8 {
      } else if k < 12 {
      } else if k < 16 {
      } else if k < 20 {
      } else {
      }
    }
  }

  /** For a box of positive extent, distinct corner numbers are distinct points. */
  lemma CornersDistinct(lo: Vec3, hi: Vec3, i: nat, j: nat)
    requires lo.x < hi.x && lo.y < hi.y && lo.z < hi.z
    requires i < 8 && j < 8 && i != j
    ensures Corner(lo, hi, i) != Corner(lo, hi, j)
  {
  }

  /** For a box of positive extent, the four vertices of a face are four distinct
      corners. */
  lemma BoxFaceCorners(lo: Vec3, hi: Vec3)
    requires lo.x < hi.x && lo.y < hi.y && lo.z < hi.z
    ensures var v := BoxVertices(lo, hi);
      forall k, l | 0 <= k < l < 24 && k / 4 == l / 4 :: v[k].position != v[l].position
  {
    forall k, l | 0 <= k < l < 24 && k / 4 == l / 4
      ensures BoxVertices(lo, hi)[k].position != BoxVertices(lo, hi)[l].position
    {
      assert BoxCorners[k] != BoxCorners[l];
      CornersDistinct(lo, hi, BoxCorners[k], BoxCorners[l]);
    }
  }

  /** With the box flat on an axis, the corners of the faces across it coincide. */
  lemma FlatBoxRepeatsCorners(lo: Vec3, hi: Vec3)
    requires lo.z == hi.z
    ensures BoxVertices(lo, hi)[0].position == BoxVertices(lo, hi)[4].position
  {
  }

  /** The negated mean of the cloud, per axis. */
  function Offset(pts: seq<seq<real>>): (avg: Vec3)
    requires IsCloud(pts)
  {
    Neg(Vec3(Mean(Column(pts, 0)), Mean(Column(pts, 1)), Mean(Column(pts, 2))))
  }

  /** Adding `avg` moves the mean of the cloud to the origin, and the mean it cancels
      lies inside the box: the offset never moves the box off the origin's side. */
  lemma OffsetCentres(pts: seq<seq<real>>)
    requires IsCloud(pts)
    ensures var c := Vec3(Mean(Column(pts, 0)), Mean(Column(pts, 1)), Mean(Column(pts, 2)));
      && Add(Offset(pts), c) == Zero
      && Within(c, Low(pts), High(pts))
  {
    MeanBetween(Column(pts, 0));
    MeanBetween(Column(pts, 1));
    MeanBetween(Column(pts, 2));
  }

  // ---------------------------------------------------------------------------
  // The manager

  class Points {
    var fPts: Option<seq<seq<real>>>
    var nPts: Option<seq<seq<real>>>
    var colors: Option<seq<seq<real>>>
    var scale: real
    var verts: Option<seq<Vertex>>
    var aabbVerts: Option<seq<Vertex>>
    var avg: Option<Vec3>

    constructor ()
      ensures fPts == None && nPts == None && colors == None && scale == 1.0
      ensures verts == None && aabbVerts == None && avg == None
    {
      fPts := None;
      nPts := None;
      colors := None;
      scale := 1.0;
      verts := None;
      aabbVerts := None;
      avg := None;
    }

    /** `load_ply(ply)`: the rows after the 13 header lines; columns 0-2 are the
        positions, 3-5 the normals and the rest the colours. `ok` is false where the
        source raises, and then nothing is stored. */
    method LoadPly(num: string -> Option<real>, lines: seq<string>) returns (ok: bool)
      modifies this`fPts, this`nPts, this`colors
      ensures var t := ReadTable(num, lines, HeaderLines);
        && (ok <==> t.Some?)
        && (!ok ==> unchanged(this))
        && (ok ==>
              && fPts == Some(Columns(t.value, 0, 3))
              && nPts == Some(Columns(t.value, 3, 6))
              && colors == Some(Columns(t.value, 6, |t.value[0]|)))
    {
      var t := ReadTable(num, lines, HeaderLines);
      if t.None? {
        return false;
      }
      var rows := t.value;
      fPts := Some(Columns(rows, 0, 3));
      nPts := Some(Columns(rows, 3, 6));
      colors := Some(Columns(rows, 6, |rows[0]|));
      return true;
    }

    /** `load_sparse_ply(ply)`: reads the vertex count from the fifth header line (and
        raises if it is not there), then takes positions from columns 0-2 and colours
        from columns 3-5 of the rows after line 13; the normals are left alone. */
    method LoadSparsePly(num: string -> Option<real>, lines: seq<string>) returns (ok: bool)
      modifies this`fPts, this`colors
      ensures var t := ReadTable(num, lines, HeaderLines);
        && (ok <==> VertexCountReadable(lines[..if |lines| < SparseHeaderLines then |lines| else SparseHeaderLines]) && t.Some?)
        && (!ok ==> unchanged(this))
        && (ok ==> fPts == Some(Columns(t.value, 0, 3)) && colors == Some(Columns(t.value, 3, 6)))
    {
      var header := lines[..if |lines| < SparseHeaderLines then |lines| else SparseHeaderLines];
      if !VertexCountReadable(header) {
        return false;
      }
      var t := ReadTable(num, lines, HeaderLines);
      if t.None? {
        return false;
      }
      fPts := Some(Columns(t.value, 0, 3));
      colors := Some(Columns(t.value, 3, 6));
      return true;
    }

    /** `make_verts()`: one vertex per zipped point and colour row, in order. */
    method MakeVerts() returns (ok: bool)
      modifies this`verts
      ensures ok <==> fPts.Some? && colors.Some? && FitsRecords(fPts.value, colors.value)
      ensures !ok ==> unchanged(`verts)
      ensures ok ==>
        var n := ZipLength(fPts.value, colors.value);
        && verts.Some? && |verts.value| == n
        && forall k | 0 <= k < n :: verts.value[k] == PointVertex(fPts.value, colors.value, k)
    {
      if fPts.None? || colors.None? || !FitsRecords(fPts.value, colors.value) {
        return false;
      }
      var pts, cs := fPts.value, colors.value;
      var n := ZipLength(pts, cs);
      var v: seq<Vertex> := [];
      for k := 0 to n
        invariant |v| == k
        invariant forall j | 0 <= j < k :: v[j] == PointVertex(pts, cs, j)
      {
        v := v + [Vertex(RowVec(Spread3(pts[k])), UpNormal, Spread3(Div255(cs[k])))];
      }
      verts := Some(v);
      return true;
    }

    /** `make_AABB()`: the 24 vertices of the bounding box and the negated mean. */
    method MakeAabb() returns (ok: bool)
      modifies this`aabbVerts, this`avg
      ensures ok <==> fPts.Some? && IsCloud(fPts.value)
      ensures !ok ==> unchanged(`aabbVerts, `avg)
      ensures ok ==>
        && aabbVerts == Some(BoxVertices(Low(fPts.value), High(fPts.value)))
        && avg == Some(Offset(fPts.value))
    {
      if fPts.None? || !IsCloud(fPts.value) {
        return false;
      }
      var pts := fPts.value;
      aabbVerts := Some(BoxVertices(Low(pts), High(pts)));
      avg := Some(Offset(pts));
      return true;
    }

    /** `_set_scale(value)`. */
    method SetScale(value: real)
      modifies this`scale
      ensures scale == value
    {
      scale := value;
    }
  }
}
