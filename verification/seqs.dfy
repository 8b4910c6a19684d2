/**
 * `Array.prototype.filter` and `Array.prototype.slice(0, n)` as functions on
 * sequences, with the facts every list page relies on: the result keeps
 * exactly the elements the predicate accepts, with their multiplicities, in
 * their original order.
 */
module Seqs {

  /** `xs.filter(p)`. */
  function Filter<T>(xs: seq<T>, p: T -> bool): seq<T>
  {
    if xs == [] then []
    else (if p(xs[0]) then [xs[0]] else []) + Filter(xs[1..], p)
  }

  /** `filter` keeps exactly the elements the predicate accepts and never lengthens the list. */
  lemma {:induction false} FilterMembers<T(!new)>(xs: seq<T>, p: T -> bool)
    ensures |Filter(xs, p)| <= |xs|
    ensures forall x :: x in Filter(xs, p) <==> x in xs && p(x)
    decreases |xs|
  {
    if xs != [] {
      FilterMembers(xs[1..], p);
      assert xs == [xs[0]] + xs[1..];
    }
  }

  /** `xs.slice(0, n)`: at most the first `n` elements. */
  function Take<T>(xs: seq<T>, n: nat): (r: seq<T>)
    ensures |r| == if |xs| < n then |xs| else n
    ensures forall k :: 0 <= k < |r| ==> r[k] == xs[k]
  {
    if |xs| <= n then xs else xs[..n]
  }

  /** `a` is `b` with some elements deleted and the rest in their original order. */
  predicate IsSubsequence<T(==)>(a: seq<T>, b: seq<T>)
    decreases |b|
  {
    a == []
    || (b != [] && ((a[0] == b[0] && IsSubsequence(a[1..], b[1..])) || IsSubsequence(a, b[1..])))
  }

  /** The elements of `xs` are pairwise ordered by `R` in list order. */
  predicate OrderedBy<T>(xs: seq<T>, R: (T, T) -> bool)
  {
    forall i, j :: 0 <= i < j < |xs| ==> R(xs[i], xs[j])
  }

  lemma SubsequenceCons<T>(a: seq<T>, b: seq<T>, y: T)
    requires IsSubsequence(a, b)
    ensures IsSubsequence(a, [y] + b) && IsSubsequence([y] + a, [y] + b)
  {
    assert ([y] + b)[1..] == b;
    assert ([y] + a)[1..] == a;
  }

  /** Every sequence is a subsequence of itself. */
  lemma {:induction false} SubsequenceReflexive<T>(a: seq<T>)
    ensures IsSubsequence(a, a)
    decreases |a|
  {
    if a != [] {
      SubsequenceReflexive(a[1..]);
    }
  }

  /** A subsequence of a subsequence is a subsequence. */
  lemma {:induction false} SubsequenceTransitive<T>(a: seq<T>, b: seq<T>, c: seq<T>)
    requires IsSubsequence(a, b) && IsSubsequence(b, c)
    ensures IsSubsequence(a, c)
    decreases |c|
  {
    if a == [] {
    } else if IsSubsequence(b, c[1..]) {
      SubsequenceTransitive(a, b, c[1..]);
    } else if a[0] == b[0] && IsSubsequence(a[1..], b[1..]) {
      SubsequenceTransitive(a[1..], b[1..], c[1..]);
    } else {
      SubsequenceTransitive(a, b[1..], c[1..]);
    }
  }

  /** A subsequence is no longer than the sequence it comes from and draws its elements from it. */
  lemma {:induction false} SubsequenceMembers<T>(a: seq<T>, b: seq<T>)
    requires IsSubsequence(a, b)
    ensures |a| <= |b|
    ensures forall x :: x in a ==> x in b
    decreases |b|
  {
    if a == [] {
    } else if a[0] == b[0] && IsSubsequence(a[1..], b[1..]) {
      SubsequenceMembers(a[1..], b[1..]);
      assert a == [a[0]] + a[1..] && b == [b[0]] + b[1..];
    } else {
      SubsequenceMembers(a, b[1..]);
      assert b == [b[0]] + b[1..];
    }
  }

  /** The first `n` elements form a subsequence. */
  lemma {:induction false} TakeIsSubsequence<T>(xs: seq<T>, n: nat)
    ensures IsSubsequence(Take(xs, n), xs)
    decreases |xs|
  {
    if |xs| <= n {
      SubsequenceReflexive(xs);
    } else if n > 0 {
      TakeIsSubsequence(xs[1..], n - 1);
      assert Take(xs, n)[1..] == Take(xs[1..], n - 1);
    }
  }

  /** Dropping elements keeps any order the original list had. */
  lemma {:induction false} SubsequenceOrdered<T>(a: seq<T>, b: seq<T>, R: (T, T) -> bool)
    requires IsSubsequence(a, b) && OrderedBy(b, R)
    ensures OrderedBy(a, R)
    decreases |b|
  {
    if a == [] {
    } else if a[0] == b[0] && IsSubsequence(a[1..], b[1..]) {
      SubsequenceOrdered(a[1..], b[1..], R);
      SubsequenceMembers(a[1..], b[1..]);
      forall i, j | 0 <= i < j < |a| ensures R(a[i], a[j]) {
        if i == 0 {
          assert a[j] in a[1..];
          var k :| 0 <= k < |b[1..]| && b[1..][k] == a[j];
          assert R(b[0], b[k + 1]);
        } else {
          assert a[i] == a[1..][i - 1] && a[j] == a[1..][j - 1];
        }
      }
    } else {
      SubsequenceOrdered(a, b[1..], R);
    }
  }

  /** `filter` returns an order-preserving subsequence of its input. */
  lemma {:induction false} FilterIsSubsequence<T(!new)>(xs: seq<T>, p: T -> bool)
    ensures IsSubsequence(Filter(xs, p), xs)
    decreases |xs|
  {
    if xs != [] {
      FilterIsSubsequence(xs[1..], p);
      SubsequenceCons(Filter(xs[1..], p), xs[1..], xs[0]);
      assert xs == [xs[0]] + xs[1..];
      if p(xs[0]) {
        assert Filter(xs, p) == [xs[0]] + Filter(xs[1..], p);
      } else {
        assert Filter(xs, p) == Filter(xs[1..], p);
      }
    }
  }

  /** `filter` keeps every accepted element as often as it occurs, and nothing else. */
  lemma {:induction false} FilterCounts<T(!new)>(xs: seq<T>, p: T -> bool, x: T)
    ensures multiset(Filter(xs, p))[x] == if p(x) then multiset(xs)[x] else 0
    decreases |xs|
  {
    if xs != [] {
      FilterCounts(xs[1..], p, x);
      assert xs == [xs[0]] + xs[1..];
    }
  }

  /** A predicate that accepts at least as much yields a list containing the other's result in order. */
  lemma {:induction false} FilterMonotone<T(!new)>(xs: seq<T>, p: T -> bool, q: T -> bool)
    requires forall x :: p(x) ==> q(x)
    ensures IsSubsequence(Filter(xs, p), Filter(xs, q))
    decreases |xs|
  {
    if xs != [] {
      FilterMonotone(xs[1..], p, q);
      var a, b := Filter(xs[1..], p), Filter(xs[1..], q);
      SubsequenceCons(a, b, xs[0]);
      if p(xs[0]) {
        assert Filter(xs, p) == [xs[0]] + a && Filter(xs, q) == [xs[0]] + b;
      } else if q(xs[0]) {
        assert Filter(xs, p) == a && Filter(xs, q) == [xs[0]] + b;
      } else {
        assert Filter(xs, p) == a && Filter(xs, q) == b;
      }
    }
  }

  /** A predicate accepting every element returns the list unchanged. */
  lemma {:induction false} FilterKeepsAll<T(!new)>(xs: seq<T>, p: T -> bool)
    requires forall x :: x in xs ==> p(x)
    ensures Filter(xs, p) == xs
    decreases |xs|
  {
    if xs != [] {
      FilterKeepsAll(xs[1..], p);
    }
  }

  /** Filtering a concatenation filters each part. */
  lemma {:induction false} FilterConcat<T(!new)>(a: seq<T>, b: seq<T>, p: T -> bool)
    ensures Filter(a + b, p) == Filter(a, p) + Filter(b, p)
    decreases |a|
  {
    if a == [] {
      assert a + b == b;
    } else {
      FilterConcat(a[1..], b, p);
      assert (a + b)[1..] == a[1..] + b;
    }
  }

  /** A predicate rejecting every element returns the empty list. */
  lemma {:induction false} FilterDropsAll<T(!new)>(xs: seq<T>, p: T -> bool)
    requires forall x :: x in xs ==> !p(x)
    ensures Filter(xs, p) == []
    decreases |xs|
  {
    if xs != [] {
      FilterDropsAll(xs[1..], p);
    }
  }

  /** Filtering keeps a list order by `R` ordered by `R`. */
  lemma FilterOrdered<T(!new)>(xs: seq<T>, p: T -> bool, R: (T, T) -> bool)
    requires OrderedBy(xs, R)
    ensures OrderedBy(Filter(xs, p), R)
  {
    FilterIsSubsequence(xs, p);
    SubsequenceOrdered(Filter(xs, p), xs, R);
  }
}
