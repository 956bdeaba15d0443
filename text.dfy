/** The string handling the pipeline relies on: Python 2's whitespace `str.split()`,
    `" ".join`, decimal rendering of counts (`"%s" % n`, `"%08d" % n`), ASCII
    `str.lower`, and the extension rule of `os.path.splitext`. Strings are `seq<char>`. */
module Text {

  /** `str.isspace` on one character of a byte string: tab, line feed, vertical tab,
      form feed, carriage return and space. */
  predicate IsSpace(c: char)
  {
    c == ' ' || ('\t' <= c <= '\r')
  }

  /** A token as `str.split()` produces it: non-empty and free of whitespace. */
  predicate IsToken(w: string)
  {
    |w| > 0 && forall i :: 0 <= i < |w| ==> !IsSpace(w[i])
  }

  /** `str.split()` scanning `s` with the characters of the token in progress in
      `cur`: a whitespace character ends the token, if any; the end of the input ends
      the last one. */
  function SplitFrom(s: string, cur: string): seq<string>
    decreases |s|
  {
    if s == [] then (if cur == [] then [] else [cur])
    else if IsSpace(s[0]) then (if cur == [] then [] else [cur]) + SplitFrom(s[1..], [])
    else SplitFrom(s[1..], cur + [s[0]])
  }

  /** `s.split()`: the maximal runs of non-whitespace characters, in order. */
  function Split(s: string): seq<string>
  {
    SplitFrom(s, [])
  }

  /** `" ".join(ts)`. */
  function Join(ts: seq<string>): string
  {
    if |ts| == 0 then ""
    else if |ts| == 1 then ts[0]
    else ts[0] + " " + Join(ts[1..])
  }

  /** Every piece `str.split()` returns is a token, when the piece in progress has no
      whitespace. */
  lemma {:induction false} SplitFromTokens(s: string, cur: string)
    requires forall i :: 0 <= i < |cur| ==> !IsSpace(cur[i])
    ensures forall k :: 0 <= k < |SplitFrom(s, cur)| ==> IsToken(SplitFrom(s, cur)[k])
    decreases |s|
  {
    if s != [] {
      if IsSpace(s[0]) {
        SplitFromTokens(s[1..], []);
      } else {
        var cur' := cur + [s[0]];
        assert forall i :: 0 <= i < |cur'| ==> cur'[i] == if i < |cur| then cur[i] else s[0];
        SplitFromTokens(s[1..], cur');
      }
    }
  }

  /** `str.split()` returns tokens only: none is empty or holds whitespace. */
  lemma SplitTokens(s: string)
    ensures forall k :: 0 <= k < |Split(s)| ==> IsToken(Split(s)[k])
  {
    SplitFromTokens(s, []);
  }

  /** Scanning over a run of non-whitespace characters adds them to the token in
      progress. */
  lemma {:induction false} SplitFromRun(w: string, rest: string, cur: string)
    requires forall i :: 0 <= i < |w| ==> !IsSpace(w[i])
    ensures SplitFrom(w + rest, cur) == SplitFrom(rest, cur + w)
    decreases |w|
  {
    if w == [] {
      assert w + rest == rest && cur + w == cur;
    } else {
      assert (w + rest)[0] == w[0] && (w + rest)[1..] == w[1..] + rest;
      SplitFromRun(w[1..], rest, cur + [w[0]]);
      assert cur + [w[0]] + w[1..] == cur + w;
    }
  }

  /** A token followed by a space and more text splits into the token first. */
  lemma SplitToken(w: string, rest: string)
    requires IsToken(w)
    ensures Split(w + " " + rest) == [w] + Split(rest)
  {
    assert w + " " + rest == w + (" " + rest);
    SplitFromRun(w, " " + rest, []);
    assert [] + w == w;
    assert (" " + rest)[1..] == rest;
  }

  /** A single token splits into itself. */
  lemma SplitSingle(w: string)
    requires IsToken(w)
    ensures Split(w) == [w]
  {
    SplitFromRun(w, "", []);
    assert w + "" == w && [] + w == w;
  }

  /** A token in front of a list that splits back to itself. */
  lemma SplitJoinCons(ts: seq<string>)
    requires |ts| > 1 && IsToken(ts[0]) && Split(Join(ts[1..])) == ts[1..]
    ensures Split(Join(ts)) == ts
  {
    SplitToken(ts[0], Join(ts[1..]));
    assert [ts[0]] + ts[1..] == ts;
  }

  /** Splitting a space-joined list of tokens gives the tokens back. */
  lemma {:induction false} SplitJoin(ts: seq<string>)
    requires forall i :: 0 <= i < |ts| ==> IsToken(ts[i])
    ensures Split(Join(ts)) == ts
  {
    if |ts| == 1 {
      SplitSingle(ts[0]);
    } else if |ts| > 1 {
      SplitJoin(ts[1..]);
      SplitJoinCons(ts);
    }
  }

  /** The decimal digit for `d`. */
  function DigitChar(d: nat): (c: char)
    requires d < 10
    ensures '0' <= c <= '9' && c as int - '0' as int == d
  {
    ('0' as int + d) as char
  }

  predicate IsDigits(s: string)
  {
    forall i :: 0 <= i < |s| ==> '0' <= s[i] <= '9'
  }

  /** The value of a string of decimal digits. */
  function DigitsValue(s: string): nat
    requires IsDigits(s)
  {
    if s == [] then 0
    else DigitsValue(s[..|s| - 1]) * 10 + (s[|s| - 1] as int - '0' as int)
  }

  /** `"%s" % n` and `str(n)` for a non-negative integer: decimal, no leading zero. */
  function NatToString(n: nat): (s: string)
    ensures IsDigits(s) && |s| >= 1
    ensures |s| > 1 ==> s[0] != '0'
  {
    if n < 10 then [DigitChar(n)] else NatToString(n / 10) + [DigitChar(n % 10)]
  }

  /** Reading the decimal rendering back gives the number. */
  lemma {:induction false} NatToStringValue(n: nat)
    ensures DigitsValue(NatToString(n)) == n
  {
    if n >= 10 {
      var s := NatToString(n);
      assert s[..|s| - 1] == NatToString(n / 10);
      NatToStringValue(n / 10);
    }
  }

  /** `k` zero characters. */
  function Zeros(k: nat): (z: string)
    ensures |z| == k && IsDigits(z)
  {
    if k == 0 then "" else Zeros(k - 1) + "0"
  }

  lemma {:induction false} ZerosValue(k: nat)
    ensures DigitsValue(Zeros(k)) == 0
  {
    if k > 0 {
      assert Zeros(k)[..k - 1] == Zeros(k - 1);
      ZerosValue(k - 1);
    }
  }

  /** Leading zeros do not change the value of a digit string. */
  lemma {:induction false} LeadingZerosValue(k: nat, s: string)
    requires IsDigits(s)
    ensures IsDigits(Zeros(k) + s) && DigitsValue(Zeros(k) + s) == DigitsValue(s)
  {
    var u := Zeros(k) + s;
    assert IsDigits(u) by {
      forall i | 0 <= i < |u| ensures '0' <= u[i] <= '9' {
        if i >= k { assert u[i] == s[i - k]; }
      }
    }
    if s == [] {
      assert u == Zeros(k);
      ZerosValue(k);
    } else {
      assert u[..|u| - 1] == Zeros(k) + s[..|s| - 1];
      LeadingZerosValue(k, s[..|s| - 1]);
    }
  }

  function Pow10(k: nat): (p: nat)
    ensures p >= 1
  {
    if k == 0 then 1 else 10 * Pow10(k - 1)
  }

  /** A number below `10^k` takes at most `k` digits. */
  lemma {:induction false} NatToStringShort(n: nat, k: nat)
    requires 1 <= k && n < Pow10(k)
    ensures |NatToString(n)| <= k
  {
    if n >= 10 {
      assert k >= 2;
      assert n / 10 < Pow10(k - 1);
      NatToStringShort(n / 10, k - 1);
    }
  }

  /** `"%08d" % n` for a non-negative integer: the decimal rendering left-padded with
      zeros to at least eight characters. */
  function ZeroPad8(n: nat): (s: string)
    ensures IsDigits(s) && |s| >= 8
    ensures DigitsValue(s) == n
    ensures n < Pow10(8) ==> |s| == 8
  {
    var d := NatToString(n);
    NatToStringValue(n);
    assert n < Pow10(8) ==> |d| <= 8 by {
      if n < Pow10(8) { NatToStringShort(n, 8); }
    }
    if |d| >= 8 then d
    else
      LeadingZerosValue(8 - |d|, d);
      Zeros(8 - |d|) + d
  }

  /** ASCII `str.lower` on one character. */
  function LowerChar(c: char): (l: char)
    ensures 'A' <= c <= 'Z' ==> 'a' <= l <= 'z' && l as int - c as int == 32
    ensures !('A' <= c <= 'Z') ==> l == c
  {
    if 'A' <= c <= 'Z' then (c as int + 32) as char else c
  }

  /** `s.lower()` for a byte string in the C locale. */
  function Lower(s: string): (l: string)
    ensures |l| == |s|
    ensures forall i :: 0 <= i < |s| ==> l[i] == LowerChar(s[i])
  {
    if s == [] then "" else [LowerChar(s[0])] + Lower(s[1..])
  }

  /** `s.rfind(c)`: the last index holding `c`, or -1. */
  function LastIndexOf(s: string, c: char): (i: int)
    ensures -1 <= i < |s|
    ensures 0 <= i ==> s[i] == c
    ensures forall j :: i < j < |s| ==> s[j] != c
  {
    if s == [] then -1
    else if s[|s| - 1] == c then |s| - 1
    else LastIndexOf(s[..|s| - 1], c)
  }

  /** The second half of `os.path.splitext(p)` on POSIX: from the last dot of the last
      path component, provided some character before that dot in the component is not
      a dot; otherwise empty. */
  function Extension(p: string): (ext: string)
    ensures ext == [] || (ext[0] == '.' && forall j :: 1 <= j < |ext| ==> ext[j] != '.' && ext[j] != '/')
    ensures |ext| <= |p| && ext == p[|p| - |ext|..]
  {
    var sep := LastIndexOf(p, '/');
    var dot := LastIndexOf(p, '.');
    if dot > sep && exists j :: sep < j < dot && p[j] != '.' then p[dot..] else ""
  }

  /** `s[:-4]`: everything but the last four characters, empty when shorter. */
  function DropLast4(s: string): (r: string)
    ensures |s| >= 4 ==> |r| == |s| - 4
    ensures |r| <= |s| && r == s[..|r|]
    ensures |s| < 4 ==> r == ""
  {
    if |s| >= 4 then s[..|s| - 4] else ""
  }

  /** `s[lo:hi]` for non-negative bounds, with Python's clipping of both. */
  function Slice<T>(s: seq<T>, lo: nat, hi: nat): (r: seq<T>)
    ensures |r| <= |s|
    ensures lo < hi && lo < |s| ==> r == s[lo..if hi < |s| then hi else |s|]
    ensures hi <= lo || |s| <= lo ==> r == []
  {
    if hi <= lo || |s| <= lo then [] else s[lo..if hi < |s| then hi else |s|]
  }

  /** Adjacent slices join up: `s[a:b] + s[b:c] == s[a:c]` for `a <= b <= c`. */
  lemma SliceSplit<T>(s: seq<T>, a: nat, b: nat, c: nat)
    requires a <= b <= c
    ensures Slice(s, a, b) + Slice(s, b, c) == Slice(s, a, c)
  {
    if a < |s| && a < b && b < |s| && b < c {
      var m := if c < |s| then c else |s|;
      assert s[a..m] == s[a..b] + s[b..m];
    }
  }

  /** `str(i)` for an integer: a minus sign in front of the digits of a negative one. */
  function IntToString(i: int): (s: string)
    ensures IsToken(s)
    ensures 0 <= i ==> s == NatToString(i)
    ensures i < 0 ==> s == "-" + NatToString(-i)
  {
    if 0 <= i then NatToString(i) else "-" + NatToString(-i)
  }

  /** Leading whitespace is dropped by `str.split()`. */
  lemma SplitLeadingSpace(s: string)
    ensures Split(" " + s) == Split(s)
  {
    assert (" " + s)[1..] == s;
  }
}
