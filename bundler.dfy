/** The bookkeeping of the Bundler pipeline (`bundle_methods/__init__.py`): how the
    photos are shared out among the worker threads, which photos are used, the focal
    length in pixels of each photo, and the lines of `list.txt` and of the feature list.

    Files, EXIF reading, the camera database and the feature extractors are outside the
    model: what they return is a parameter. */
module Bundling {
  import opened RealMath
  import opened Optional
  import opened Text
  import opened Sorting

  // ---------------------------------------------------------------------------
  // Integer division facts

  /** `k * n` as repeated addition, so that the index arithmetic below stays linear. */
  function Times(k: nat, n: nat): nat
  {
    if k == 0 then 0 else Times(k - 1, n) + n
  }

  lemma {:induction false} TimesIsMul(k: nat, n: nat)
    ensures Times(k, n) == k * n
  {
    if k > 0 {
      TimesIsMul(k - 1, n);
      assert (k - 1) * n + n == k * n;
    }
  }

  /** Euclidean division in terms of `Times`. */
  lemma DivTimes(m: nat, n: nat)
    requires n > 0
    ensures m == Times(m / n, n) + m % n && 0 <= m % n < n
  {
    TimesIsMul(m / n, n);
  }

  /** A quotient and remainder in range are the ones of Euclidean division. */
  lemma DivUnique(x: nat, n: nat, q: nat, r: nat)
    requires 0 <= r < n && x == Times(q, n) + r
    ensures x / n == q && x % n == r
  {
    TimesIsMul(q, n);
    var q0, r0 := x / n, x % n;
    assert x == q0 * n + r0;
    if q0 < q {
      assert (q - q0) * n == q * n - q0 * n;
      MulAtLeast(q - q0, n);
    } else if q < q0 {
      assert (q0 - q) * n == q0 * n - q * n;
      MulAtLeast(q0 - q, n);
    }
  }

  lemma MulAtLeast(d: int, n: int)
    requires 1 <= d && 0 < n
    ensures d * n >= n
  {
  }

  // ---------------------------------------------------------------------------
  // chunk_list

  /** `l[i::n]`: the elements at `i`, `i + n`, `i + 2n`, ... */
  function Stride<T>(l: seq<T>, i: nat, n: nat): seq<T>
    requires n > 0
    decreases |l| - i
  {
    if i >= |l| then [] else [l[i]] + Stride(l, i + n, n)
  }

  /** Element `k` of `l[i::n]` is `l[i + k n]`. */
  lemma {:induction false} StrideAt<T>(l: seq<T>, i: nat, n: nat)
    requires n > 0
    ensures forall k | 0 <= k < |Stride(l, i, n)| ::
      i + Times(k, n) < |l| && Stride(l, i, n)[k] == l[i + Times(k, n)]
    decreases |l| - i
  {
    if i < |l| {
      StrideAt(l, i + n, n);
      var s := Stride(l, i, n);
      forall k | 0 <= k < |s|
        ensures i + Times(k, n) < |l| && s[k] == l[i + Times(k, n)]
      {
        if k > 0 {
          assert s[k] == Stride(l, i + n, n)[k - 1];
        }
      }
    }
  }

  /** Place `k` of `l[i::n]` comes from an index inside `l`. */
  lemma StrideIndex<T>(l: seq<T>, i: nat, n: nat, k: nat)
    requires n > 0 && k < |Stride(l, i, n)|
    ensures i + Times(k, n) < |l|
  {
    StrideAt(l, i, n);
  }

  /** Every index `i + k n` inside `l` is a place of `l[i::n]`. */
  lemma {:induction false} StrideCovers<T>(l: seq<T>, i: nat, n: nat, k: nat)
    requires n > 0 && i + Times(k, n) < |l|
    ensures k < |Stride(l, i, n)|
    decreases |l| - i
  {
    if k > 0 {
      StrideCovers(l, i + n, n, k - 1);
    }
  }

  /** `l[i::n]` for `0 <= i < n` has `|l| / n` elements, one more when `i` is below the
      remainder `|l| % n`. */
  lemma StrideLength<T>(l: seq<T>, i: nat, n: nat)
    requires 0 <= i < n
    ensures |Stride(l, i, n)| == |l| / n + (if i < |l| % n then 1 else 0)
  {
    var q, r := |l| / n, |l| % n;
    DivTimes(|l|, n);
    var len := q + (if i < r then 1 else 0);
    if len > 0 {
      assert i + Times(len - 1, n) < |l| by {
        if i >= r {
          assert Times(q, n) == Times(q - 1, n) + n;
        }
      }
      StrideCovers(l, i, n, len - 1);
    }
    if |Stride(l, i, n)| > len {
      StrideIndex(l, i, n, len);
      assert false;
    }
  }

  /** `chunk_list(l, n)`: `n` lists, list `i` being `l[i::n]`; none when `n` is not
      positive. */
  method ChunkList<T>(l: seq<T>, n: int) returns (threads: seq<seq<T>>)
    ensures n <= 0 ==> threads == []
    ensures n > 0 ==> |threads| == n && forall i | 0 <= i < n :: threads[i] == Stride(l, i, n)
  {
    if n <= 0 {
      return [];
    }
    threads := seq(n, _ => []);
    for i := 0 to n
      invariant |threads| == n
      invariant forall j | 0 <= j < i :: threads[j] == Stride(l, j, n)
    {
      threads := threads[i := Stride(l, i, n)];
    }
  }

  /** Element `j` of `l` is element `j / n` of chunk `j % n`. */
  lemma ChunksCover<T>(l: seq<T>, n: nat)
    requires n > 0
    ensures forall j | 0 <= j < |l| :: j / n < |Stride(l, j % n, n)| && Stride(l, j % n, n)[j / n] == l[j]
  {
    forall j | 0 <= j < |l|
      ensures j / n < |Stride(l, j % n, n)| && Stride(l, j % n, n)[j / n] == l[j]
    {
      var i, k := j % n, j / n;
      DivTimes(j, n);
      StrideCovers(l, i, n, k);
      StrideAt(l, i, n);
      assert Stride(l, i, n)[k] == l[i + Times(k, n)];
    }
  }

  /** Place `k` of chunk `i` holds element `i + k n` of `l`, and that index leads back to
      chunk `i`, place `k`: with `ChunksCover`, every element lands in exactly one
      place. */
  lemma ChunksPlaces<T>(l: seq<T>, n: nat)
    requires n > 0
    ensures forall i, k | 0 <= i < n && 0 <= k < |Stride(l, i, n)| ::
      && i + Times(k, n) < |l|
      && Stride(l, i, n)[k] == l[i + Times(k, n)]
      && (i + Times(k, n)) % n == i && (i + Times(k, n)) / n == k
  {
    forall i, k | 0 <= i < n && 0 <= k < |Stride(l, i, n)|
      ensures && i + Times(k, n) < |l|
              && Stride(l, i, n)[k] == l[i + Times(k, n)]
              && (i + Times(k, n)) % n == i && (i + Times(k, n)) / n == k
    {
      StrideAt(l, i, n);
      DivUnique(i + Times(k, n), n, k, i);
    }
  }

  /** The chunk lengths differ by at most one, the longer ones coming first. */
  lemma ChunksBalanced<T>(l: seq<T>, n: nat)
    requires n > 0
    ensures forall i, j | 0 <= i <= j < n ::
      |Stride(l, j, n)| <= |Stride(l, i, n)| <= |Stride(l, j, n)| + 1
  {
    forall i, j | 0 <= i <= j < n
      ensures |Stride(l, j, n)| <= |Stride(l, i, n)| <= |Stride(l, j, n)| + 1
    {
      StrideLength(l, i, n);
      StrideLength(l, j, n);
    }
  }

  // ---------------------------------------------------------------------------
  // load_data: which photos are used

  /** `"%08d.jpg" % i` for a frame index. */
  function FrameName(i: nat): (name: string)
    ensures |name| >= 12 && name[|name| - 4..] == ".jpg"
    ensures i < Pow10(8) ==> |name| == 12
  {
    ZeroPad8(i) + ".jpg"
  }

  /** Different frames get different names: the digits in front of `.jpg` read back as
      the index. */
  lemma FrameNameInjective(i: nat, j: nat)
    ensures FrameName(i) == FrameName(j) ==> i == j
  {
    if FrameName(i) == FrameName(j) {
      var a, b := FrameName(i), FrameName(j);
      assert ZeroPad8(i) == a[..|a| - 4];
      assert ZeroPad8(j) == b[..|b| - 4];
    }
  }

  /** The names of the frames listed in `keyframes.npy` (or `otherframes.npy` when
      photos are added), in array order. */
  function FrameNames(frames: seq<nat>): (names: seq<string>)
    ensures |names| == |frames|
    ensures forall k | 0 <= k < |frames| :: names[k] == FrameName(frames[k])
  {
    seq(|frames|, k requires 0 <= k < |frames| => FrameName(frames[k]))
  }

  /** `os.path.splitext(f)[1].lower() == ".jpg"`. */
  predicate IsJpg(f: string)
  {
    Lower(Extension(f)) == ".jpg"
  }

  /** The names of the directory listing that are files with a `.jpg` extension in any
      letter case, in listing order. */
  function JpgFilter(listing: seq<string>, isFile: string -> bool): (photos: seq<string>)
    ensures |photos| <= |listing|
    ensures forall f :: f in photos <==> f in listing && isFile(f) && IsJpg(f)
  {
    if listing == [] then []
    else
      var rest := JpgFilter(listing[1..], isFile);
      assert forall f :: f in listing <==> f == listing[0] || f in listing[1..];
      if isFile(listing[0]) && IsJpg(listing[0]) then [listing[0]] + rest else rest
  }

  /** The filter works entry by entry, in listing order: the photos of a listing split
      in two are the photos of the first part followed by those of the second, and a
      single entry gives itself exactly when it passes. */
  lemma {:induction false} JpgFilterInOrder(a: seq<string>, b: seq<string>, isFile: string -> bool)
    ensures JpgFilter(a + b, isFile) == JpgFilter(a, isFile) + JpgFilter(b, isFile)
    ensures forall f :: JpgFilter([f], isFile) == if isFile(f) && IsJpg(f) then [f] else []
  {
    if a == [] {
      assert a + b == b;
    } else {
      assert (a + b)[0] == a[0] && (a + b)[1..] == a[1..] + b;
      JpgFilterInOrder(a[1..], b, isFile);
    }
    forall f
      ensures JpgFilter([f], isFile) == if isFile(f) && IsJpg(f) then [f] else []
    {
      assert [f][1..] == [];
    }
  }

  /** The frame names pass the `.jpg` filter of the fallback: both ways of choosing the
      photos agree on what a photo name looks like. */
  lemma FrameNameIsJpg(i: nat)
    ensures IsJpg(FrameName(i))
  {
    var d := ZeroPad8(i);
    DigitsJpgExtension(d);
    assert FrameName(i) == d + ".jpg";
  }

  /** A nonempty run of digits followed by `.jpg` has the extension `.jpg`. */
  lemma DigitsJpgExtension(d: string)
    requires |d| > 0 && IsDigits(d)
    ensures Extension(d + ".jpg") == ".jpg"
    ensures Lower(".jpg") == ".jpg"
  {
    var s := d + ".jpg";
    DigitsJpgNoSlash(d);
    DigitsJpgLastDot(d);
    assert s[0] == d[0];
    assert s[|d|..] == ".jpg";
  }

  lemma DigitsJpgNoSlash(d: string)
    requires IsDigits(d)
    ensures LastIndexOf(d + ".jpg", '/') == -1
  {
    var s := d + ".jpg";
    forall j | 0 <= j < |s|
      ensures s[j] != '/'
    {
      if j < |d| {
        assert s[j] == d[j];
      }
    }
  }

  lemma DigitsJpgLastDot(d: string)
    requires IsDigits(d)
    ensures LastIndexOf(d + ".jpg", '.') == |d|
  {
    var s := d + ".jpg";
    assert s[|d|] == '.' && s[|d| + 1] == 'j' && s[|d| + 2] == 'p' && s[|d| + 3] == 'g';
  }

  // ---------------------------------------------------------------------------
  // Focal length in pixels

  /** `float(r[0]) / float(r[1])` for the EXIF rational `r`; `None` where the division
      by a zero denominator raises. */
  function FocalRational(num: int, den: int): (f: Option<real>)
    ensures f.Some? <==> den != 0
    ensures f.Some? ==> f.value * den as real == num as real
  {
    if den == 0 then None else Some(num as real / den as real)
  }

  /** The EXIF fields `calc_focal_length_pixels` looks at, `None` when absent; the focal
      length is the value `get_exif` has already turned into a number. */
  datatype Exif = Exif(make: Option<string>, model: Option<string>, focal: Option<real>,
                       width: Option<real>, height: Option<real>)

  /** The third field of a `photo_list` entry: the focal length in pixels, or the
      string `' '` when it is unknown. */
  datatype FocalField = Pixels(value: real) | Blank

  /** A `photo_list` entry `(basename, 0, focal)`. */
  datatype PhotoEntry = PhotoEntry(name: string, focal: FocalField)

  /** What one call adds to `photo_list`, and whether it raises. */
  datatype Outcome = Outcome(entries: seq<PhotoEntry>, raises: bool)

  /** `SCALE`. */
  const Scale: real := 1.0

  /** `max(width, height) * (focal / ccd)`. */
  function FocalPixels(focal: real, width: real, height: real, ccd: real): real
    requires ccd != 0.0
  {
    Scale * ((if width < height then height else width) * (focal / ccd))
  }

  /** The conditions of the first branch of `calc_focal_length_pixels`: make and model
      known, a database row (`if ccdWidth:` holds for any row, even one holding 0), and
      a focal length, width and height that are all present and positive. */
  predicate Measured(exif: Exif, ccd: Option<real>)
  {
    && exif.make.Some? && exif.model.Some? && ccd.Some?
    && exif.focal.Some? && exif.width.Some? && exif.height.Some?
    && exif.focal.value > 0.0 && exif.width.value > 0.0 && exif.height.value > 0.0
  }

  /** The first branch of `calc_focal_length_pixels`: with make and model known, a
      database row (`ccd`, its sensor width) and a focal length, width and height that
      are all positive, the entry with the focal length in pixels; a sensor width of 0
      makes the division raise. */
  function MeasuredEntry(name: string, exif: Exif, ccd: Option<real>): (o: Outcome)
    ensures |o.entries| <= 1
  {
    if Measured(exif, ccd) then
      if ccd.value == 0.0 then Outcome([], true)
      else Outcome([PhotoEntry(name, Pixels(FocalPixels(exif.focal.value, exif.width.value, exif.height.value, ccd.value)))], false)
    else Outcome([], false)
  }

  /** `calc_focal_length_pixels(p_obj, photo_info, exif)` as written: without a focal
      length the second branch appends the blank entry, except in verbose mode, where
      its message names the undefined `p_obj_info` and raises `NameError` first. */
  function FocalOutcome(name: string, exif: Exif, ccd: Option<real>, verbose: bool): (o: Outcome)
    ensures |o.entries| <= 1
  {
    var first := MeasuredEntry(name, exif, ccd);
    if first.raises then first
    else if exif.focal.None? then
      if verbose then Outcome([], true) else Outcome([PhotoEntry(name, Blank)], false)
    else first
  }

  /** `calc_focal_length_pixels` with the message naming `photo_info`: the blank entry
      is appended whatever the verbosity. */
  function FocalOutcomeFixed(name: string, exif: Exif, ccd: Option<real>): (o: Outcome)
    ensures |o.entries| <= 1
  {
    var first := MeasuredEntry(name, exif, ccd);
    if first.raises then first
    else if exif.focal.None? then Outcome([PhotoEntry(name, Blank)], false)
    else first
  }

  /** A photo without a focal length is left out of `photo_list` in verbose mode. */
  lemma VerboseLosesBlankEntry()
    ensures var exif := Exif(None, None, None, None, None);
      && FocalOutcome("00000001.jpg", exif, None, true) == Outcome([], true)
      && FocalOutcomeFixed("00000001.jpg", exif, None) == Outcome([PhotoEntry("00000001.jpg", Blank)], false)
  {
  }

  /** Outside that case the two agree. */
  lemma FocalOutcomeFixedAgrees(name: string, exif: Exif, ccd: Option<real>, verbose: bool)
    requires !verbose || exif.focal.Some?
    ensures FocalOutcome(name, exif, ccd, verbose) == FocalOutcomeFixed(name, exif, ccd)
  {
  }

  /** The rules of the focal length: an entry with a focal length in pixels exactly when
      make, model and the camera's sensor width are known, the sensor width is not 0 and
      focal length, width and height are positive, and then the value is
      `max(width, height) * focal / ccd`, positive for a positive sensor width; under the
      same conditions a sensor width of 0 raises `ZeroDivisionError`; the blank entry
      exactly when the focal length is missing; otherwise nothing, so a known focal
      length for an unknown camera adds nothing. */
  lemma FocalRules(name: string, exif: Exif, ccd: Option<real>)
    ensures var o := FocalOutcomeFixed(name, exif, ccd);
      && (exif.focal.None? ==> o == Outcome([PhotoEntry(name, Blank)], false))
      && (exif.focal.Some? && ccd.None? ==> o == Outcome([], false))
      && (Measured(exif, ccd) && ccd.value != 0.0 ==>
            o == Outcome([PhotoEntry(name, Pixels(FocalPixels(exif.focal.value, exif.width.value, exif.height.value, ccd.value)))], false))
      && (Measured(exif, ccd) && ccd.value == 0.0 ==> o == Outcome([], true))
      && (exif.focal.Some? && !o.raises && o.entries != [] ==>
            && exif.make.Some? && exif.model.Some? && ccd.Some? && ccd.value != 0.0
            && exif.width.Some? && exif.height.Some?
            && exif.focal.value > 0.0 && exif.width.value > 0.0 && exif.height.value > 0.0
            && o.entries[0].name == name
            && o.entries[0].focal.Pixels?
            && o.entries[0].focal.value * ccd.value
                 == exif.focal.value * (if exif.width.value < exif.height.value then exif.height.value else exif.width.value)
            && (ccd.value > 0.0 ==> o.entries[0].focal.value > 0.0))
  {
    var o := FocalOutcomeFixed(name, exif, ccd);
    if exif.focal.Some? && !o.raises && o.entries != [] {
      var f, c := exif.focal.value, ccd.value;
      var w := if exif.width.value < exif.height.value then exif.height.value else exif.width.value;
      assert o.entries[0].focal.value == w * (f / c);
      assert (f / c) * c == f;
      assert w * (f / c) * c == w * f;
      if c > 0.0 {
        assert f / c > 0.0;
        PositiveProduct(w, f / c);
      }
    }
  }

  lemma PositiveProduct(a: real, b: real)
    requires a > 0.0 && b > 0.0
    ensures a * b > 0.0
  {
  }

  // ---------------------------------------------------------------------------
  // The list files

  /** Python 2's `<=` on byte strings: lexicographic by character code. */
  predicate StrLe(a: string, b: string)
  {
    if a == [] then true
    else if b == [] then false
    else if a[0] != b[0] then a[0] < b[0]
    else StrLe(a[1..], b[1..])
  }

  lemma {:induction false} StrLeTotal(a: string, b: string)
    ensures StrLe(a, b) || StrLe(b, a)
  {
    if a != [] && b != [] && a[0] == b[0] {
      StrLeTotal(a[1..], b[1..]);
    }
  }

  lemma {:induction false} StrLeAntisymmetric(a: string, b: string)
    requires StrLe(a, b) && StrLe(b, a)
    ensures a == b
  {
    if a != [] && b != [] {
      StrLeAntisymmetric(a[1..], b[1..]);
      assert a == [a[0]] + a[1..] && b == [b[0]] + b[1..];
    }
  }

  lemma {:induction false} StrLeTransitive(a: string, b: string, c: string)
    requires StrLe(a, b) && StrLe(b, c)
    ensures StrLe(a, c)
  {
    if a != [] && b != [] && c != [] && a[0] == b[0] && b[0] == c[0] {
      StrLeTransitive(a[1..], b[1..], c[1..]);
    }
  }

  /** Python 2's order on the third field: numbers before strings. */
  predicate FocalLe(a: FocalField, b: FocalField)
  {
    match (a, b)
    case (Pixels(x), Pixels(y)) => x <= y
    case (Pixels(_), Blank) => true
    case (Blank, Pixels(_)) => false
    case (Blank, Blank) => true
  }

  /** Tuple order on `(basename, 0, focal)`. */
  predicate EntryLe(a: PhotoEntry, b: PhotoEntry)
  {
    if a.name == b.name then FocalLe(a.focal, b.focal) else StrLe(a.name, b.name)
  }

  /** The tuple order is a total preorder, so sorting by it is meaningful. */
  lemma EntryLeTotalPreorder()
    ensures TotalPreorder(EntryLe)
  {
    forall a: PhotoEntry, b: PhotoEntry
      ensures EntryLe(a, b) || EntryLe(b, a)
    {
      StrLeTotal(a.name, b.name);
    }
    forall a: PhotoEntry, b: PhotoEntry, c: PhotoEntry | EntryLe(a, b) && EntryLe(b, c)
      ensures EntryLe(a, c)
    {
      if a.name != b.name && b.name != c.name {
        StrLeTransitive(a.name, b.name, c.name);
        if a.name == c.name {
          StrLeAntisymmetric(a.name, b.name);
        }
      }
    }
  }

  /** A `list.txt` line, `"%s %s %s" % (name, 0, focal)`, with `fmt` standing for
      Python's `str` of a float. */
  function PhotoLine(e: PhotoEntry, fmt: real -> string): string
  {
    e.name + " 0 " + (match e.focal case Pixels(v) => fmt(v) case Blank => " ")
  }

  /** Read back with `split()`, a line gives the name, `0` and the focal length, and for
      the blank entry only the name and `0`: Bundler sees no focal length. */
  lemma PhotoLineFields(e: PhotoEntry, fmt: real -> string)
    requires IsToken(e.name)
    requires e.focal.Pixels? ==> IsToken(fmt(e.focal.value))
    ensures e.focal.Pixels? ==> Split(PhotoLine(e, fmt)) == [e.name, "0", fmt(e.focal.value)]
    ensures e.focal.Blank? ==> Split(PhotoLine(e, fmt)) == [e.name, "0"]
  {
    assert IsToken("0");
    if e.focal.Pixels? {
      var ts := [e.name, "0", fmt(e.focal.value)];
      SplitJoin(ts);
      assert ts[1..] == ["0", fmt(e.focal.value)] && ts[1..][1..] == [fmt(e.focal.value)];
      assert Join(ts[1..]) == "0" + " " + fmt(e.focal.value);
      assert Join(ts) == e.name + " " + ("0" + " " + fmt(e.focal.value));
      assert PhotoLine(e, fmt) == Join(ts);
    } else {
      var line := PhotoLine(e, fmt);
      assert line == e.name + " " + ("0" + " " + " ");
      SplitToken(e.name, "0" + " " + " ");
      SplitToken("0", " ");
      assert Split(" ") == [];
    }
  }

  /** A feature list entry `(photo[:-4], extension)`. */
  datatype FeatureEntry = FeatureEntry(stem: string, ext: string)

  /** A feature list line, `"%s.%s" % (stem, extension)`. */
  function FeatureLine(e: FeatureEntry): string
  {
    e.stem + "." + e.ext
  }

  /** Tuple order on `(stem, extension)`. */
  predicate FeatureLe(a: FeatureEntry, b: FeatureEntry)
  {
    if a.stem == b.stem then StrLe(a.ext, b.ext) else StrLe(a.stem, b.stem)
  }

  lemma FeatureLeTotalPreorder()
    ensures TotalPreorder(FeatureLe)
  {
    forall a: FeatureEntry, b: FeatureEntry
      ensures FeatureLe(a, b) || FeatureLe(b, a)
    {
      StrLeTotal(a.stem, b.stem);
      StrLeTotal(a.ext, b.ext);
    }
    forall a: FeatureEntry, b: FeatureEntry, c: FeatureEntry | FeatureLe(a, b) && FeatureLe(b, c)
      ensures FeatureLe(a, c)
    {
      if a.stem != b.stem && b.stem != c.stem {
        StrLeTransitive(a.stem, b.stem, c.stem);
        if a.stem == c.stem {
          StrLeAntisymmetric(a.stem, b.stem);
        }
      } else if a.stem == b.stem && b.stem == c.stem {
        StrLeTransitive(a.ext, b.ext, c.ext);
      }
    }
  }

  /** For a frame photo the feature list names the file after the frame digits, with
      the photo's `.jpg` replaced by the extractor's extension. */
  lemma FrameFeatureLine(i: nat, ext: string)
    ensures FeatureLine(FeatureEntry(DropLast4(FrameName(i)), ext)) == ZeroPad8(i) + "." + ext
  {
    var s := FrameName(i);
    assert DropLast4(s) == s[..|s| - 4] == ZeroPad8(i);
  }

  /** The lines of `list.txt`, in sorted entry order. */
  function PhotoListLines(entries: seq<PhotoEntry>, fmt: real -> string): seq<string>
  {
    var s := Sort(entries, EntryLe);
    seq(|s|, k requires 0 <= k < |s| => PhotoLine(s[k], fmt))
  }

  /** `list.txt` holds one line per entry, each entry once, in tuple order. */
  lemma PhotoListSorted(entries: seq<PhotoEntry>, fmt: real -> string)
    ensures var s := Sort(entries, EntryLe);
      && multiset(s) == multiset(entries)
      && Sorted(s, EntryLe)
      && forall k | 0 <= k < |s| :: PhotoListLines(entries, fmt)[k] == PhotoLine(s[k], fmt)
  {
    EntryLeTotalPreorder();
    SortSorted(entries, EntryLe);
  }

  /** The lines of the feature list, in sorted entry order. */
  function FeatureListLines(entries: seq<FeatureEntry>): seq<string>
  {
    var s := Sort(entries, FeatureLe);
    seq(|s|, k requires 0 <= k < |s| => FeatureLine(s[k]))
  }

  lemma FeatureListSorted(entries: seq<FeatureEntry>)
    ensures var s := Sort(entries, FeatureLe);
      && multiset(s) == multiset(entries)
      && Sorted(s, FeatureLe)
      && forall k | 0 <= k < |s| :: FeatureListLines(entries)[k] == FeatureLine(s[k])
  {
    FeatureLeTotalPreorder();
    SortSorted(entries, FeatureLe);
  }

  // ---------------------------------------------------------------------------
  // The pipeline object

  class Bundler {
    var photos: seq<string>
    var photoList: seq<PhotoEntry>
    var featureList: seq<FeatureEntry>

    constructor ()
      ensures photos == [] && photoList == [] && featureList == []
    {
      photos := [];
      photoList := [];
      featureList := [];
    }

    /** `load_data()`: the frames of the `.npy` array (`keyframes.npy`, or
        `otherframes.npy` when adding photos) when it loads, otherwise the `.jpg` files
        of `src_imgs`. */
    method LoadData(frames: Option<seq<nat>>, listing: seq<string>, isFile: string -> bool)
      modifies this`photos
      ensures frames.Some? ==> photos == FrameNames(frames.value)
      ensures frames.None? ==> photos == JpgFilter(listing, isFile)
    {
      if frames.Some? {
        photos := FrameNames(frames.value);
      } else {
        photos := JpgFilter(listing, isFile);
      }
    }

    /** `calc_focal_length_pixels(p_obj, photo_info, exif)` for the photo `name`, with
        `ccd` the database row for its make and model (`None` when there is none); `ok`
        is false where the source raises. */
    method CalcFocalLengthPixels(name: string, exif: Exif, ccd: Option<real>) returns (ok: bool)
      modifies this`photoList
      ensures photoList == old(photoList) + FocalOutcomeFixed(name, exif, ccd).entries
      ensures ok <==> !FocalOutcomeFixed(name, exif, ccd).raises
    {
      if exif.make.Some? && exif.model.Some? {
        if ccd.Some? {
          if exif.focal.Some? && exif.width.Some? && exif.height.Some? {
            var focalLength, width, height := exif.focal.value, exif.width.value, exif.height.value;
            if focalLength > 0.0 && width > 0.0 && height > 0.0 {
              if width < height {
                width := height;
              }
              if ccd.value == 0.0 {
                return false;
              }
              var focalPixels := width * (focalLength / ccd.value);
              photoList := photoList + [PhotoEntry(name, Pixels(Scale * focalPixels))];
              assert Scale * focalPixels == FocalPixels(exif.focal.value, exif.width.value, exif.height.value, ccd.value);
              assert MeasuredEntry(name, exif, ccd).entries == [PhotoEntry(name, Pixels(Scale * focalPixels))];
            }
          }
        }
      }
      if exif.focal.None? {
        photoList := photoList + [PhotoEntry(name, Blank)];
      }
      return true;
    }

    /** The bookkeeping of `extract_features(photo)` once the extractor has written its
        file: the entry `(photo[:-4], extension)`. */
    method ExtractFeatures(photo: string, ext: string)
      modifies this`featureList
      ensures featureList == old(featureList) + [FeatureEntry(DropLast4(photo), ext)]
    {
      featureList := featureList + [FeatureEntry(DropLast4(photo), ext)];
    }

    /** The loops of `prepare_photos` that write `list.txt` and the feature list (or
        `add_list.txt` and its feature list when adding photos). */
    method ListFiles(fmt: real -> string) returns (listLines: seq<string>, featureLines: seq<string>)
      ensures listLines == PhotoListLines(photoList, fmt)
      ensures featureLines == FeatureListLines(featureList)
    {
      var sortedPhotos := Sort(photoList, EntryLe);
      listLines := [];
      for k := 0 to |sortedPhotos|
        invariant listLines == PhotoListLines(photoList, fmt)[..k]
      {
        listLines := listLines + [PhotoLine(sortedPhotos[k], fmt)];
      }
      var sortedFeatures := Sort(featureList, FeatureLe);
      featureLines := [];
      for k := 0 to |sortedFeatures|
        invariant featureLines == FeatureListLines(featureList)[..k]
      {
        featureLines := featureLines + [FeatureLine(sortedFeatures[k])];
      }
    }
  }
}
