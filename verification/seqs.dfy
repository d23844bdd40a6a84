/** Sequence facts shared by the model: uniqueness, index-aware filtering in the
    shape of JavaScript's `Array.prototype.filter`, and subsequences. */
module Seqs {

  /** No value occurs at two positions of `s`. */
  predicate NoDuplicates<T(==)>(s: seq<T>) {
    forall i, j :: 0 <= i < j < |s| ==> s[i] != s[j]
  }

  /** `r` is obtained from `xs` by deleting zero or more elements. */
  predicate IsSubsequence<T(==)>(r: seq<T>, xs: seq<T>)
    decreases |xs|
  {
    || |r| == 0
    || (&& |xs| > 0
        && (|| (r[|r| - 1] == xs[|xs| - 1] && IsSubsequence(r[..|r| - 1], xs[..|xs| - 1]))
            || IsSubsequence(r, xs[..|xs| - 1])))
  }

  /** `xs.filter((x, i) => keep(x, i))`: the elements the predicate keeps, in
      their original order. Defined on prefixes, the way `filter` visits the
      indices 0, 1, 2, ... and appends each kept element. */
  function FilterIndexed<T>(xs: seq<T>, keep: (T, nat) -> bool): (r: seq<T>)
    ensures |r| <= |xs|
    decreases |xs|
  {
    if |xs| == 0 then []
    else
      var i := |xs| - 1;
      FilterIndexed(xs[..i], keep) + (if keep(xs[i], i) then [xs[i]] else [])
  }

  /** `xs.filter(y => y !== x)`: every occurrence of `x` removed. */
  function Without<T(==)>(xs: seq<T>, x: T): seq<T> {
    FilterIndexed(xs, (y: T, i: nat) => y != x)
  }

  /** A value survives the filter exactly when it sits at some index the
      predicate keeps. */
  lemma {:induction false} FilterIndexedMembers<T>(xs: seq<T>, keep: (T, nat) -> bool, y: T)
    ensures y in FilterIndexed(xs, keep) <==> exists j :: 0 <= j < |xs| && xs[j] == y && keep(y, j)
    decreases |xs|
  {
    if |xs| > 0 {
      var i := |xs| - 1;
      var p := xs[..i];
      FilterIndexedMembers(p, keep, y);
      if exists j :: 0 <= j < |xs| && xs[j] == y && keep(y, j) {
        var j :| 0 <= j < |xs| && xs[j] == y && keep(y, j);
        if j < i {
          assert p[j] == y;
        }
      }
      if y in FilterIndexed(p, keep) {
        var j :| 0 <= j < |p| && p[j] == y && keep(y, j);
        assert xs[j] == y;
      }
    }
  }

  /** The filter only deletes: its result is a subsequence of its input. */
  lemma {:induction false} FilterIndexedIsSubsequence<T>(xs: seq<T>, keep: (T, nat) -> bool)
    ensures IsSubsequence(FilterIndexed(xs, keep), xs)
    decreases |xs|
  {
    if |xs| > 0 {
      var i := |xs| - 1;
      var p := FilterIndexed(xs[..i], keep);
      FilterIndexedIsSubsequence(xs[..i], keep);
      var r := FilterIndexed(xs, keep);
      if keep(xs[i], i) {
        assert r == p + [xs[i]];
        assert r[..|r| - 1] == p;
      } else {
        assert r == p;
      }
    }
  }

  /** After removing `x`, the values left are exactly the other values of `xs`. */
  lemma WithoutMembers<T>(xs: seq<T>, x: T)
    ensures forall y :: y in Without(xs, x) <==> y in xs && y != x
  {
    forall y
      ensures y in Without(xs, x) <==> y in xs && y != x
    {
      FilterIndexedMembers(xs, (z: T, i: nat) => z != x, y);
    }
  }

  /** Removal only deletes: the remaining values keep their relative order. */
  lemma WithoutIsSubsequence<T>(xs: seq<T>, x: T)
    ensures IsSubsequence(Without(xs, x), xs)
  {
    FilterIndexedIsSubsequence(xs, (y: T, i: nat) => y != x);
  }

  /** Removing `x` leaves every other value with its original number of
      occurrences, and `x` with none. */
  lemma {:induction false} WithoutCounts<T>(xs: seq<T>, x: T, y: T)
    ensures multiset(Without(xs, x))[y] == if y == x then 0 else multiset(xs)[y]
    decreases |xs|
  {
    if |xs| > 0 {
      var i := |xs| - 1;
      WithoutCounts(xs[..i], x, y);
      assert xs == xs[..i] + [xs[i]];
      assert Without(xs, x) == Without(xs[..i], x) + (if xs[i] != x then [xs[i]] else []);
    }
  }

  /** Removal distributes over concatenation, so the cities on either side of
      a removed one keep their relative order. */
  lemma {:induction false} WithoutConcat<T>(a: seq<T>, b: seq<T>, x: T)
    ensures Without(a + b, x) == Without(a, x) + Without(b, x)
    decreases |b|
  {
    if |b| == 0 {
      assert a + b == a;
    } else {
      var i := |b| - 1;
      WithoutConcat(a, b[..i], x);
      assert (a + b)[..|a + b| - 1] == a + b[..i];
      assert (a + b)[|a + b| - 1] == b[i];
    }
  }

  /** Removing a value that does not occur changes nothing. */
  lemma {:induction false} WithoutAbsent<T>(xs: seq<T>, x: T)
    requires x !in xs
    ensures Without(xs, x) == xs
    decreases |xs|
  {
    if |xs| > 0 {
      var i := |xs| - 1;
      WithoutAbsent(xs[..i], x);
      assert xs == xs[..i] + [xs[i]];
    }
  }

  /** In a duplicate-free sequence, removing the value at index `k` is the
      same as cutting that one position out. */
  lemma WithoutUnique<T>(xs: seq<T>, k: nat)
    requires NoDuplicates(xs) && k < |xs|
    ensures Without(xs, xs[k]) == xs[..k] + xs[k + 1..]
  {
    var x := xs[k];
    assert xs == xs[..k] + [x] + xs[k + 1..];
    assert x !in xs[..k];
    assert x !in xs[k + 1..];
    WithoutConcat(xs[..k] + [x], xs[k + 1..], x);
    WithoutConcat(xs[..k], [x], x);
    WithoutAbsent(xs[..k], x);
    WithoutAbsent(xs[k + 1..], x);
    assert [x][..0] == [];
  }

  /** Removal keeps a duplicate-free sequence duplicate-free. */
  lemma {:induction false} WithoutKeepsNoDuplicates<T>(xs: seq<T>, x: T)
    requires NoDuplicates(xs)
    ensures NoDuplicates(Without(xs, x))
    decreases |xs|
  {
    if |xs| > 0 {
      var i := |xs| - 1;
      var p := xs[..i];
      assert NoDuplicates(p);
      WithoutKeepsNoDuplicates(p, x);
      if xs[i] != x {
        WithoutMembers(p, x);
        assert xs[i] !in p;
        var r := Without(p, x);
        assert Without(xs, x) == r + [xs[i]];
      }
    }
  }

  /** Removing two values gives the same sequence in either order. */
  lemma {:induction false} WithoutCommutes<T>(xs: seq<T>, a: T, b: T)
    ensures Without(Without(xs, a), b) == Without(Without(xs, b), a)
    decreases |xs|
  {
    if |xs| > 0 {
      var i := |xs| - 1;
      var p := xs[..i];
      var x := xs[i];
      WithoutCommutes(p, a, b);
      var tailA := if x != a then [x] else [];
      var tailB := if x != b then [x] else [];
      assert Without(xs, a) == Without(p, a) + tailA;
      assert Without(xs, b) == Without(p, b) + tailB;
      WithoutConcat(Without(p, a), tailA, b);
      WithoutConcat(Without(p, b), tailB, a);
      assert [x][..0] == [];
      assert Without(tailA, b) == Without(tailB, a);
    }
  }

  /** Removing the same value twice is the same as removing it once. */
  lemma WithoutIdempotent<T>(xs: seq<T>, x: T)
    ensures Without(Without(xs, x), x) == Without(xs, x)
  {
    WithoutMembers(xs, x);
    WithoutAbsent(Without(xs, x), x);
  }
}
