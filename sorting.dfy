/** Python's built-in `sorted`, which both the cone test (by distance) and the list-file
    writer (by tuple order) call. It is a stable sort; here it is an insertion sort over a
    caller-supplied comparison `le` that must be a total preorder (total and transitive,
    as Python's `<=` on floats without NaN and on tuples of strings and numbers is). */
module Sorting {

  ghost predicate TotalPreorder<T(!new)>(le: (T, T) -> bool)
  {
    && (forall a, b :: le(a, b) || le(b, a))
    && (forall a, b, c :: le(a, b) && le(b, c) ==> le(a, c))
  }

  predicate Sorted<T>(s: seq<T>, le: (T, T) -> bool)
  {
    forall i, j :: 0 <= i < j < |s| ==> le(s[i], s[j])
  }

  /** Places `x` in front of the first element it is not greater than. */
  function Insert<T>(x: T, t: seq<T>, le: (T, T) -> bool): (r: seq<T>)
    ensures multiset(r) == multiset(t) + multiset{x}
  {
    if t == [] || le(x, t[0]) then [x] + t
    else
      assert t == [t[0]] + t[1..];
      [t[0]] + Insert(x, t[1..], le)
  }

  /** `sorted(s, key=...)`, with `le` comparing the keys. */
  function Sort<T>(s: seq<T>, le: (T, T) -> bool): (r: seq<T>)
    ensures multiset(r) == multiset(s)
  {
    if s == [] then []
    else
      assert s == [s[0]] + s[1..];
      Insert(s[0], Sort(s[1..], le), le)
  }

  lemma {:induction false} InsertSorted<T(!new)>(x: T, t: seq<T>, le: (T, T) -> bool)
    requires TotalPreorder(le) && Sorted(t, le)
    ensures Sorted(Insert(x, t, le), le)
  {
    if t != [] && !le(x, t[0]) {
      InsertSorted(x, t[1..], le);
      var r := Insert(x, t[1..], le);
      forall k | 0 <= k < |r| ensures le(t[0], r[k]) {
        assert r[k] in multiset(r);
        assert r[k] == x || r[k] in multiset(t[1..]);
        if r[k] != x {
          var j :| 0 <= j < |t[1..]| && t[1..][j] == r[k];
          assert t[j + 1] == r[k];
        }
      }
    }
  }

  /** The result is ordered by `le`. */
  lemma {:induction false} SortSorted<T(!new)>(s: seq<T>, le: (T, T) -> bool)
    requires TotalPreorder(le)
    ensures Sorted(Sort(s, le), le)
  {
    if s != [] {
      SortSorted(s[1..], le);
      InsertSorted(s[0], Sort(s[1..], le), le);
    }
  }

  predicate Equivalent<T>(a: T, b: T, le: (T, T) -> bool)
  {
    le(a, b) && le(b, a)
  }

  /** The elements of `s` whose key equals the key of `y`, in their order in `s`. */
  function Class<T>(s: seq<T>, y: T, le: (T, T) -> bool): (c: seq<T>)
    ensures |c| <= |s|
    ensures forall k :: 0 <= k < |c| ==> Equivalent(c[k], y, le)
  {
    if s == [] then []
    else if Equivalent(s[0], y, le) then [s[0]] + Class(s[1..], y, le)
    else Class(s[1..], y, le)
  }

  lemma {:induction false} ClassInsert<T(!new)>(x: T, t: seq<T>, y: T, le: (T, T) -> bool)
    requires TotalPreorder(le)
    ensures Class(Insert(x, t, le), y, le) == Class([x] + t, y, le)
  {
    if t != [] && !le(x, t[0]) {
      ClassInsert(x, t[1..], y, le);
      assert ([x] + t)[1..] == t;
      assert ([x] + t[1..])[1..] == t[1..];
      assert t == [t[0]] + t[1..];
      if Equivalent(x, y, le) {
        assert !Equivalent(t[0], y, le);
      }
    } else {
      assert Insert(x, t, le) == [x] + t;
    }
  }

  /** Stability: elements with equal keys keep their relative input order. */
  lemma {:induction false} SortStable<T(!new)>(s: seq<T>, y: T, le: (T, T) -> bool)
    requires TotalPreorder(le)
    ensures Class(Sort(s, le), y, le) == Class(s, y, le)
  {
    if s != [] {
      SortStable(s[1..], y, le);
      ClassInsert(s[0], Sort(s[1..], le), y, le);
      assert ([s[0]] + Sort(s[1..], le))[1..] == Sort(s[1..], le);
      assert s == [s[0]] + s[1..];
    }
  }
}
