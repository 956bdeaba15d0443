/** The SURF extractor of OpenCV (`surfcv.py`): OpenCV detects the keypoints and computes
    their descriptors, and `extract` writes them in Lowe's format with the x coordinate
    mirrored across the image width and the descriptors truncated to integers. The
    detector and the descriptor extractor are left to the caller: their keypoints and
    descriptors come in as parameters, and `fmt` stands for Python's `str` of a float. */
module SurfCv {
  import opened RealMath
  import opened Text
  import opened LoweFormat
  import SiftVlfeatDev

  /** An OpenCV keypoint: position, size and angle in degrees. */
  datatype Keypoint = Keypoint(x: real, y: real, size: real, angle: real)

  /** The Lowe file `"%s.key.gz" % photo`: the photo's full name, as in the development
      VLFeat extractor. */
  function LoweName(photo: string): (name: string)
    ensures name == SiftVlfeatDev.FilesFor(photo).lowe
  {
    photo + ".key.gz"
  }

  /** `"%s %s" % (len(kp), len(desc[0]))`. */
  function Header(count: nat, length: nat): string
  {
    NatToString(count) + " " + NatToString(length)
  }

  /** The header splits into the keypoint count and the descriptor length. */
  lemma HeaderReadsBack(count: nat, length: nat)
    ensures Split(Header(count, length)) == [NatToString(count), NatToString(length)]
  {
    var c, l := NatToString(count), NatToString(length);
    SplitToken(c, l);
    SplitSingle(l);
  }

  /** `np.int32` on one descriptor: every value truncated toward zero. */
  function TruncRow(d: seq<real>): (r: seq<int>)
    ensures |r| == |d|
    ensures forall i | 0 <= i < |d| :: r[i] == Trunc(d[i])
  {
    seq(|d|, i requires 0 <= i < |d| => Trunc(d[i]))
  }

  /** `map(str, d)`. */
  function IntStrings(d: seq<int>): (r: seq<string>)
    ensures |r| == |d|
    ensures forall i | 0 <= i < |d| :: r[i] == IntToString(d[i]) && IsToken(r[i])
  {
    seq(|d|, i requires 0 <= i < |d| => IntToString(d[i]))
  }

  /** The ends of the descriptor slices `d[0:20]`, …, `d[100:120]`, `d[120:]`; the last
      end is the descriptor length, or 120 when it is shorter, where `d[120:]` is empty. */
  function DescriptorEnds(length: nat): (ends: seq<nat>)
    ensures |ends| == 7 && Ascending(ends) && ends[6] >= length
  {
    [20, 40, 60, 80, 100, 120, if length < 120 then 120 else length]
  }

  /** The seven descriptor lines, each behind a space. */
  function DescriptorLines(d: seq<int>): (lines: seq<string>)
    ensures |lines| == 7
  {
    SliceLines(IntStrings(d), 0, DescriptorEnds(|d|), " ")
  }

  /** Read back, the descriptor lines hold the whole descriptor, in order: the last line
      takes whatever the six lines of twenty leave. */
  lemma DescriptorReadsBack(d: seq<int>)
    ensures ReadBack(DescriptorLines(d)) == IntStrings(d)
  {
    var s := IntStrings(d);
    var ends := DescriptorEnds(|d|);
    SliceLinesReadBack(s, 0, ends, " ");
    if 0 < |s| {
      assert s[0..|s|] == s;
    }
  }

  /** The first line of a record: `width - x`, `y`, the size and the angle in radians. */
  function KeypointLine(width: real, k: Keypoint, fmt: real -> string): string
  {
    Join([fmt(width - k.x), fmt(k.y), fmt(k.size), fmt(Radians(k.angle))])
  }

  /** The first line splits back into the four values, in order, when `fmt` renders
      tokens: the mirrored x coordinate, y, the size and the angle in radians. */
  lemma KeypointLineReadsBack(width: real, k: Keypoint, fmt: real -> string)
    requires forall v :: IsToken(fmt(v))
    ensures Split(KeypointLine(width, k, fmt)) == [fmt(width - k.x), fmt(k.y), fmt(k.size), fmt(Radians(k.angle))]
  {
    var vs := [fmt(width - k.x), fmt(k.y), fmt(k.size), fmt(Radians(k.angle))];
    SplitJoin(vs);
  }

  /** The eight lines of one keypoint and its descriptor. */
  function Record(width: real, fmt: real -> string, pair: (Keypoint, seq<real>)): (lines: seq<string>)
    ensures |lines| == 8
  {
    [KeypointLine(width, pair.0, fmt)] + DescriptorLines(TruncRow(pair.1))
  }

  /** `zip(kp, desc)`: pairs up to the shorter of the two. */
  function Zip(kp: seq<Keypoint>, desc: seq<seq<real>>): (pairs: seq<(Keypoint, seq<real>)>)
    ensures |pairs| == (if |kp| < |desc| then |kp| else |desc|)
    ensures forall i | 0 <= i < |pairs| :: pairs[i] == (kp[i], desc[i])
  {
    var n := if |kp| < |desc| then |kp| else |desc|;
    seq(n, i requires 0 <= i < n => (kp[i], desc[i]))
  }

  /** `extract(photo, photoInfo)` for the keypoints and descriptors OpenCV found: the
      lines of the Lowe file. Without any descriptor, `desc[0]` raises before the header
      is written (`ok` false, nothing written). */
  method Extract(width: real, kp: seq<Keypoint>, desc: seq<seq<real>>, fmt: real -> string)
    returns (out: seq<string>, ok: bool)
    ensures ok <==> |desc| > 0
    ensures !ok ==> out == []
    ensures ok ==>
              out == [Header(|kp|, |desc[0]|)] + Concat(pair => Record(width, fmt, pair), Zip(kp, desc))
  {
    if |desc| == 0 {
      return [], false;
    }
    out := [Header(|kp|, |desc[0]|)];
    var pairs := Zip(kp, desc);
    ghost var records: seq<seq<string>> := [];
    for m := 0 to |pairs|
      invariant |records| == m
      invariant forall i {:trigger pairs[i]} | 0 <= i < m :: records[i] == Record(width, fmt, pairs[i])
      invariant out == [Header(|kp|, |desc[0]|)] + Flatten(records)
    {
      var (k, d) := pairs[m];
      var lines := [KeypointLine(width, k, fmt)] + DescriptorLines(TruncRow(d));
      AppendAssoc([Header(|kp|, |desc[0]|)], Flatten(records), lines);
      FlattenSnoc(records, lines);
      ghost var previous := records;
      records := records + [lines];
      forall i | 0 <= i < m + 1
        ensures records[i] == Record(width, fmt, pairs[i])
      {
        SnocAt(previous, lines, i);
      }
      out := out + lines;
    }
    FlattenRecords(pair => Record(width, fmt, pair), pairs, records);
    ok := true;
  }

  /** Keypoint `i` owns lines `8i + 1` to `8i + 8` of the file, in the order OpenCV
      returned the keypoints, and its descriptor lines read back as its truncated
      descriptor. */
  lemma RecordPlace(width: real, kp: seq<Keypoint>, desc: seq<seq<real>>, fmt: real -> string, i: nat)
    requires i < |kp| && i < |desc|
    ensures var body := Concat(pair => Record(width, fmt, pair), Zip(kp, desc));
      && |body| == 8 * |Zip(kp, desc)|
      && body[8 * i..8 * i + 8] == Record(width, fmt, (kp[i], desc[i]))
      && ReadBack(body[8 * i + 1..8 * i + 8]) == IntStrings(TruncRow(desc[i]))
  {
    var rec := pair => Record(width, fmt, pair);
    var pairs := Zip(kp, desc);
    ConcatOrder(rec, pairs, i);
    var body := Concat(rec, pairs);
    var r := Record(width, fmt, (kp[i], desc[i]));
    assert body[8 * i + 1..8 * i + 8] == r[1..];
    assert r[1..] == DescriptorLines(TruncRow(desc[i]));
    DescriptorReadsBack(TruncRow(desc[i]));
  }
}
