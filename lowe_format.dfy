/** Keypoint files in David Lowe's text format, the format Bundler's matcher reads: a
    header line `<count> <descriptor length>`, then for each keypoint a first line with
    its location, scale and orientation and the descriptor on the following lines.
    The VLFeat extractors write one keypoint per text line, `x y scale angle d0 … d127`;
    the conversion swaps the first two values (Lowe writes row before column) and cuts
    the line into slices of 4, 20, 20, 20, 20, 20, 20 and 8 values. */
module LoweFormat {
  import opened Text

  /** The ends of the slices written one per line. */
  const SliceEnds: seq<nat> := [4, 24, 44, 64, 84, 104, 124, 132]

  /** Each end at least the one before. */
  predicate Ascending(ends: seq<nat>)
  {
    forall i, j | 0 <= i < j < |ends| :: ends[i] <= ends[j]
  }

  /** The lines `lead + " ".join(s[start:ends[0]])`, `lead + " ".join(s[ends[0]:ends[1]])`,
      …: one line per slice, each behind the same lead. */
  function SliceLines(s: seq<string>, start: nat, ends: seq<nat>, lead: string): (lines: seq<string>)
    ensures |lines| == |ends|
    decreases |ends|
  {
    if ends == [] then []
    else [lead + Join(Slice(s, start, ends[0]))] + SliceLines(s, ends[0], ends[1..], lead)
  }

  /** Line `j` holds the slice between the previous end and end `j`. */
  lemma {:induction false} SliceLineAt(s: seq<string>, start: nat, ends: seq<nat>, lead: string, j: nat)
    requires j < |ends|
    ensures SliceLines(s, start, ends, lead)[j]
      == lead + Join(Slice(s, if j == 0 then start else ends[j - 1], ends[j]))
    decreases j
  {
    if j > 0 {
      SliceLineAt(s, ends[0], ends[1..], lead, j - 1);
    }
  }

  /** What `str.split()` gives line by line, one after another. */
  function ReadBack(lines: seq<string>): seq<string>
  {
    if lines == [] then [] else Split(lines[0]) + ReadBack(lines[1..])
  }

  /** Reading the lines back with `split()` gives `s[start:last]`: every value once, in
      order, none split or merged, when the values are tokens, the ends ascend and the
      lead is empty or a space. */
  lemma {:induction false} SliceLinesReadBack(s: seq<string>, start: nat, ends: seq<nat>, lead: string)
    requires forall i | 0 <= i < |s| :: IsToken(s[i])
    requires ends != [] && Ascending(ends) && start <= ends[0]
    requires lead == "" || lead == " "
    ensures ReadBack(SliceLines(s, start, ends, lead)) == Slice(s, start, ends[|ends| - 1])
    decreases |ends|
  {
    var lines := SliceLines(s, start, ends, lead);
    LineReadsBack(s, start, ends[0], lead);
    if |ends| == 1 {
      assert ReadBack(lines) == Slice(s, start, ends[0]) + ReadBack([]);
    } else {
      var rest := ends[1..];
      AscendingTail(ends);
      SliceLinesReadBack(s, ends[0], rest, lead);
      assert lines[1..] == SliceLines(s, ends[0], rest, lead);
      SliceSplit(s, start, ends[0], ends[|ends| - 1]);
    }
  }

  /** One line reads back as its slice. */
  lemma LineReadsBack(s: seq<string>, lo: nat, hi: nat, lead: string)
    requires forall i | 0 <= i < |s| :: IsToken(s[i])
    requires lead == "" || lead == " "
    ensures Split(lead + Join(Slice(s, lo, hi))) == Slice(s, lo, hi)
  {
    var g := Slice(s, lo, hi);
    assert forall i | 0 <= i < |g| :: IsToken(g[i]);
    SplitJoin(g);
    if lead == " " {
      SplitLeadingSpace(Join(g));
    } else {
      assert lead + Join(g) == Join(g);
    }
  }

  lemma AscendingTail(ends: seq<nat>)
    requires |ends| > 1 && Ascending(ends)
    ensures Ascending(ends[1..]) && ends[0] <= ends[1] <= ends[|ends| - 1]
  {
    var rest := ends[1..];
    forall i, j | 0 <= i < j < |rest| ensures rest[i] <= rest[j] {
      assert rest[i] == ends[i + 1] && rest[j] == ends[j + 1];
    }
  }

  /** Columns and rows exchanged: the first two values swapped, the rest kept. */
  function Swap(ts: seq<string>): (r: seq<string>)
    requires |ts| >= 2
    ensures |r| == |ts|
  {
    [ts[1], ts[0]] + ts[2..]
  }

  /** Swapping twice restores the line, and swapping only reorders the values. */
  lemma SwapInverse(ts: seq<string>)
    requires |ts| >= 2
    ensures Swap(Swap(ts)) == ts
    ensures multiset(Swap(ts)) == multiset(ts)
    ensures Swap(ts)[0] == ts[1] && Swap(ts)[1] == ts[0] && Swap(ts)[2..] == ts[2..]
  {
    assert Swap(ts)[2..] == ts[2..];
    assert ts == [ts[0], ts[1]] + ts[2..];
    calc {
      multiset(Swap(ts));
      multiset([ts[1], ts[0]]) + multiset(ts[2..]);
      multiset([ts[0], ts[1]]) + multiset(ts[2..]);
      multiset(ts);
    }
  }

  /** The slice ends ascend, eight of them, the last at 132. */
  lemma SliceEndsAscend()
    ensures Ascending(SliceEnds) && |SliceEnds| == 8 && SliceEnds[7] == 132
  {
  }

  lemma SwapTokens(ts: seq<string>)
    requires |ts| >= 2 && forall i | 0 <= i < |ts| :: IsToken(ts[i])
    ensures forall i | 0 <= i < |Swap(ts)| :: IsToken(Swap(ts)[i])
  {
    var s := Swap(ts);
    forall i | 0 <= i < |s| ensures IsToken(s[i]) {
      assert s[i] == if i == 0 then ts[1] else if i == 1 then ts[0] else ts[i];
    }
  }

  /** The header `"%s 128" % count`. */
  function Header(count: nat): string
  {
    NatToString(count) + " 128"
  }

  /** The header splits into the count and the descriptor length 128. */
  lemma HeaderReadsBack(count: nat)
    ensures Split(Header(count)) == [NatToString(count), "128"]
    ensures DigitsValue(NatToString(count)) == count
  {
    var n := NatToString(count);
    assert IsToken(n) && IsToken("128");
    SplitJoin([n, "128"]);
    assert [n, "128"][1..] == ["128"];
    assert Join([n, "128"]) == Header(count);
    NatToStringValue(count);
  }

  /** The eight lines one VLFeat line becomes; a line with fewer than two values is
      never converted (the swap raises), and gets no lines here. */
  function RecordLines(ts: seq<string>): (lines: seq<string>)
    ensures |ts| >= 2 ==> |lines| == 8
  {
    if |ts| < 2 then [] else SliceLines(Swap(ts), 0, SliceEnds, "")
  }

  /** Read back, the eight lines hold the swapped values of the VLFeat line, up to the
      132nd: a line of exactly 132 values (4 for the frame and 128 for the descriptor)
      comes back whole. */
  lemma RecordReadsBack(ts: seq<string>)
    requires |ts| >= 2 && forall i | 0 <= i < |ts| :: IsToken(ts[i])
    ensures ReadBack(RecordLines(ts)) == Slice(Swap(ts), 0, 132)
    ensures |ts| == 132 ==> ReadBack(RecordLines(ts)) == Swap(ts)
  {
    var s := Swap(ts);
    SwapTokens(ts);
    SliceEndsAscend();
    SliceLinesReadBack(s, 0, SliceEnds, "");
    if |ts| == 132 {
      assert s[0..132] == s;
    }
  }

  /** The values of each line of the VLFeat file, as `split()` gives them. */
  function SplitLines(lines: seq<string>): (tss: seq<seq<string>>)
    ensures |tss| == |lines|
    ensures forall k | 0 <= k < |lines| :: tss[k] == Split(lines[k])
  {
    seq(|lines|, k requires 0 <= k < |lines| => Split(lines[k]))
  }

  /** Every line has at least the two values that are swapped. */
  predicate Swappable(tss: seq<seq<string>>)
  {
    forall k | 0 <= k < |tss| :: |tss[k]| >= 2
  }

  /** The records `rec(x)` of the items, one after another: the body of a Lowe file. */
  function Concat<T>(rec: T -> seq<string>, xs: seq<T>): seq<string>
  {
    if xs == [] then [] else Concat(rec, xs[..|xs| - 1]) + rec(xs[|xs| - 1])
  }

  /** The records of two lists one after the other are those of their concatenation. */
  lemma {:induction false} ConcatAppend<T>(rec: T -> seq<string>, a: seq<T>, b: seq<T>)
    ensures Concat(rec, a + b) == Concat(rec, a) + Concat(rec, b)
    decreases |b|
  {
    if b == [] {
      assert a + b == a;
    } else {
      var b' := b[..|b| - 1];
      ConcatAppend(rec, a, b');
      assert (a + b)[..|a + b| - 1] == a + b';
      assert (a + b)[|a + b| - 1] == b[|b| - 1];
    }
  }

  /** With records of eight lines each, item `k` owns lines `8k` to `8k + 7`, so the
      records are in the order of the items. */
  lemma ConcatOrder<T>(rec: T -> seq<string>, xs: seq<T>, k: nat)
    requires forall x | x in xs :: |rec(x)| == 8
    requires k < |xs|
    ensures |Concat(rec, xs)| == 8 * |xs|
    ensures Concat(rec, xs)[8 * k..8 * k + 8] == rec(xs[k])
  {
    var a, c := xs[..k], xs[k + 1..];
    assert xs == (a + [xs[k]]) + c;
    ConcatLength(rec, xs);
    ConcatLength(rec, a);
    assert Concat(rec, [xs[k]]) == rec(xs[k]) by {
      assert [xs[k]][..0] == [];
    }
    ConcatAppend(rec, a, [xs[k]]);
    ConcatAppend(rec, a + [xs[k]], c);
  }

  /** The lines of a list of records, one record after another. */
  function Flatten<T>(records: seq<seq<T>>): seq<T>
  {
    if records == [] then [] else Flatten(records[..|records| - 1]) + records[|records| - 1]
  }

  lemma FlattenSnoc<T>(records: seq<seq<T>>, record: seq<T>)
    ensures Flatten(records + [record]) == Flatten(records) + record
  {
    assert (records + [record])[..|records|] == records;
  }

  lemma SnocAt<T>(s: seq<T>, x: T, k: nat)
    requires k <= |s|
    ensures (s + [x])[k] == if k < |s| then s[k] else x
  {
  }

  /** Flattening the records item by item is the concatenation of the records. */
  lemma {:induction false} FlattenRecords<T>(rec: T -> seq<string>, xs: seq<T>, records: seq<seq<string>>)
    requires |records| == |xs| && forall k | 0 <= k < |xs| :: records[k] == rec(xs[k])
    ensures Flatten(records) == Concat(rec, xs)
    decreases |xs|
  {
    if xs != [] {
      FlattenRecords(rec, xs[..|xs| - 1], records[..|records| - 1]);
    }
  }

  /** One more item adds its record at the end. */
  lemma ConcatSnoc<T>(rec: T -> seq<string>, xs: seq<T>, x: T)
    ensures Concat(rec, xs + [x]) == Concat(rec, xs) + rec(x)
  {
    assert (xs + [x])[..|xs|] == xs;
  }

  lemma AppendAssoc<T>(a: seq<T>, b: seq<T>, c: seq<T>)
    ensures (a + b) + c == a + (b + c)
  {
  }

  /** Records of eight lines each make eight lines per item. */
  lemma {:induction false} ConcatLength<T>(rec: T -> seq<string>, xs: seq<T>)
    requires forall x | x in xs :: |rec(x)| == 8
    ensures |Concat(rec, xs)| == 8 * |xs|
    decreases |xs|
  {
    if xs != [] {
      var init := xs[..|xs| - 1];
      assert forall x | x in init :: x in xs;
      assert xs[|xs| - 1] in xs;
      ConcatLength(rec, init);
    }
  }

  /** The position of the first line from `i` on with fewer than two values, or the
      line count. */
  function FirstShort(tss: seq<seq<string>>, i: nat): (m: nat)
    requires i <= |tss|
    ensures i <= m <= |tss|
    ensures forall k | i <= k < m :: |tss[k]| >= 2
    ensures m < |tss| ==> |tss[m]| < 2
    decreases |tss| - i
  {
    if i == |tss| || |tss[i]| < 2 then i else FirstShort(tss, i + 1)
  }

  /** The conversion of the VLFeat extractors: the lines written to the gzipped file
      for the lines of the executable's text file. A line with fewer than two values
      raises `IndexError` at the swap, after the records of the lines before it have
      been written; `ok` is false then. */
  method Convert(lines: seq<string>) returns (out: seq<string>, ok: bool)
    ensures var tss := SplitLines(lines);
      && (ok <==> Swappable(tss))
      && out == [Header(|lines|)] + Concat(RecordLines, tss[..FirstShort(tss, 0)])
  {
    ghost var records;
    out, ok, records := ConvertValues(SplitLines(lines));
    ghost var tss := SplitLines(lines);
    FlattenRecords(RecordLines, tss[..FirstShort(tss, 0)], records);
  }

  /** The loop over the lines, each given by the values `split()` finds on it; `records`
      are the records written, one per line converted. */
  method ConvertValues(tss: seq<seq<string>>) returns (out: seq<string>, ok: bool, ghost records: seq<seq<string>>)
    ensures ok <==> Swappable(tss)
    ensures |records| == FirstShort(tss, 0)
    ensures forall k {:trigger RecordLines(tss[k])} | 0 <= k < |records| :: records[k] == RecordLines(tss[k])
    ensures out == [Header(|tss|)] + Flatten(records)
  {
    records := [];
    out := [Header(|tss|)];
    var m := 0;
    while m < |tss|
      invariant 0 <= m <= |tss| && m <= FirstShort(tss, 0)
      invariant forall k | 0 <= k < m :: |tss[k]| >= 2
      invariant |records| == m
      invariant forall k {:trigger RecordLines(tss[k])} | 0 <= k < m :: records[k] == RecordLines(tss[k])
      invariant out == [Header(|tss|)] + Flatten(records)
    {
      var features := tss[m];
      if |features| < 2 {
        assert FirstShort(tss, 0) == m;
        return out, false, records;
      }
      var record := ConvertLine(features);
      out := out + record;
      AppendAssoc([Header(|tss|)], Flatten(records), record);
      FlattenSnoc(records, record);
      ghost var previous := records;
      records := records + [record];
      forall k | 0 <= k < m + 1
        ensures records[k] == RecordLines(tss[k])
      {
        SnocAt(previous, record, k);
      }
      m := m + 1;
    }
    ok := true;
  }

  /** The body of the outer loop for a line with at least two values: the swap, then
      the inner loop. */
  method ConvertLine(features: seq<string>) returns (record: seq<string>)
    requires |features| >= 2
    ensures record == RecordLines(features)
  {
    var swapped := features;
    var fx := swapped[1];
    var fy := swapped[0];
    swapped := swapped[0 := fx][1 := fy];
    assert swapped == Swap(features);
    record := WriteRecord(swapped, SliceEnds);
  }

  /** The inner loop: the slices of the swapped values up to each end, joined with
      spaces, one line each. */
  method WriteRecord(features: seq<string>, ends: seq<nat>) returns (lines: seq<string>)
    ensures lines == SliceLines(features, 0, ends, "")
  {
    lines := [];
    var i1 := 0;
    for j := 0 to |ends|
      invariant i1 == if j == 0 then 0 else ends[j - 1]
      invariant lines + SliceLines(features, i1, ends[j..], "") == SliceLines(features, 0, ends, "")
    {
      var i2 := ends[j];
      var line := Join(Slice(features, i1, i2));
      SliceLinesStep(features, i1, ends[j..]);
      assert ends[j..][1..] == ends[j + 1..];
      AppendAssoc(lines, [line], SliceLines(features, i2, ends[j + 1..], ""));
      lines := lines + [line];
      i1 := i2;
    }
    assert lines + [] == lines;
  }

  /** The first line with no lead, then the others. */
  lemma SliceLinesStep(s: seq<string>, start: nat, ends: seq<nat>)
    requires ends != []
    ensures SliceLines(s, start, ends, "") == [Join(Slice(s, start, ends[0]))] + SliceLines(s, ends[0], ends[1..], "")
  {
    assert "" + Join(Slice(s, start, ends[0])) == Join(Slice(s, start, ends[0]));
  }
}
