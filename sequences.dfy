/**
 * The stream stages the evaluator chains together (filter, distinct, limit,
 * reduce), written as functions over sequences, with the reference
 * definitions they are proved against.
 */
module Sequences {
  import opened Options

  /** `stream.filter(keep)`: the elements that pass, in their original order. */
  function Filter<T(!new)>(s: seq<T>, keep: T -> bool): (r: seq<T>)
    ensures |r| <= |s|
    ensures forall x :: x in r <==> x in s && keep(x)
  {
    if s == [] then []
    else if keep(s[0]) then [s[0]] + Filter(s[1..], keep)
    else Filter(s[1..], keep)
  }

  /** Filtering distributes over concatenation. */
  lemma {:induction false} FilterAppend<T(!new)>(a: seq<T>, b: seq<T>, keep: T -> bool)
    ensures Filter(a + b, keep) == Filter(a, keep) + Filter(b, keep)
  {
    if a == [] {
      assert a + b == b;
    } else {
      assert (a + b)[0] == a[0] && (a + b)[1..] == a[1..] + b;
      FilterAppend(a[1..], b, keep);
    }
  }

  /** Two filters in a row are one filter by the conjunction. */
  lemma {:induction false} FilterFuse<T(!new)>(s: seq<T>, p: T -> bool, q: T -> bool, both: T -> bool)
    requires forall x :: both(x) == (p(x) && q(x))
    ensures Filter(Filter(s, p), q) == Filter(s, both)
  {
    if s != [] {
      FilterFuse(s[1..], p, q, both);
      if p(s[0]) {
        assert Filter(s, p) == [s[0]] + Filter(s[1..], p);
        assert ([s[0]] + Filter(s[1..], p))[1..] == Filter(s[1..], p);
      }
    }
  }

  /** The order in which two filters are applied is immaterial. */
  lemma {:induction false} FilterCommutes<T(!new)>(s: seq<T>, p: T -> bool, q: T -> bool)
    ensures Filter(Filter(s, p), q) == Filter(Filter(s, q), p)
  {
    var both := (x: T) => p(x) && q(x);
    FilterFuse(s, p, q, both);
    FilterFuse(s, q, p, both);
  }

  /** `stream.distinct()` after the elements in `seen` have gone by: each
      remaining value once, at its first occurrence. */
  function DistinctFrom<T(==,!new)>(s: seq<T>, seen: set<T>): (d: seq<T>)
    ensures forall x :: x in d <==> x in s && x !in seen
    ensures forall i, j :: 0 <= i < j < |d| ==> d[i] != d[j]
  {
    if s == [] then []
    else if s[0] in seen then DistinctFrom(s[1..], seen)
    else [s[0]] + DistinctFrom(s[1..], seen + {s[0]})
  }

  /** `stream.distinct()`: every value of the stream once, at its first occurrence. */
  function Distinct<T(==,!new)>(s: seq<T>): (d: seq<T>)
    ensures forall x :: x in d <==> x in s
    ensures forall i, j :: 0 <= i < j < |d| ==> d[i] != d[j]
  {
    DistinctFrom(s, {})
  }

  /** The first value `DistinctFrom` yields is the first element not yet seen. */
  lemma {:induction false} DistinctFromHead<T(!new)>(s: seq<T>, seen: set<T>)
    requires DistinctFrom(s, seen) != []
    ensures exists k :: 0 <= k < |s| && s[k] !in seen && DistinctFrom(s, seen)[0] == s[k]
                        && forall j :: 0 <= j < k ==> s[j] in seen
  {
    if s[0] in seen {
      DistinctFromHead(s[1..], seen);
      var k :| 0 <= k < |s[1..]| && s[1..][k] !in seen && DistinctFrom(s[1..], seen)[0] == s[1..][k]
               && forall j :: 0 <= j < k ==> s[1..][j] in seen;
      assert forall j :: 0 <= j < k + 1 ==> s[j] in seen by {
        forall j | 0 <= j < k + 1 ensures s[j] in seen {
          if j > 0 { assert s[j] == s[1..][j - 1]; }
        }
      }
      assert s[k + 1] == s[1..][k];
    } else {
      assert DistinctFrom(s, seen)[0] == s[0];
    }
  }

  /** The first two values `distinct()` yields: the first element, and the
      first element that differs from it. */
  lemma DistinctFirstTwo<T(!new)>(s: seq<T>)
    ensures |Distinct(s)| >= 1 ==> Distinct(s)[0] == s[0]
    ensures |Distinct(s)| >= 2 ==>
      exists k :: 0 < k < |s| && Distinct(s)[1] == s[k] && forall j :: 0 <= j < k ==> s[j] == s[0]
  {
    if |Distinct(s)| >= 2 {
      assert s != [] by { assert Distinct(s)[0] in s; }
      var rest := DistinctFrom(s[1..], {s[0]});
      assert {} + {s[0]} == {s[0]};
      assert Distinct(s) == [s[0]] + rest;
      DistinctFromHead(s[1..], {s[0]});
      var k :| 0 <= k < |s[1..]| && s[1..][k] !in {s[0]} && rest[0] == s[1..][k]
               && forall j :: 0 <= j < k ==> s[1..][j] in {s[0]};
      assert s[k + 1] == s[1..][k];
      assert forall j :: 0 <= j < k + 1 ==> s[j] == s[0] by {
        forall j | 0 <= j < k + 1 ensures s[j] == s[0] {
          if j > 0 { assert s[j] == s[1..][j - 1]; }
        }
      }
    }
  }

  /** `stream.limit(n)`: at most the first `n` elements. */
  function Take<T>(s: seq<T>, n: nat): (r: seq<T>)
    ensures |r| == if |s| <= n then |s| else n
    ensures forall i :: 0 <= i < |r| ==> r[i] == s[i]
  {
    if |s| <= n then s else s[..n]
  }

  /** Reference definition of the exact sum of a sequence of amounts. */
  function SeqSum(xs: seq<real>): real {
    if xs == [] then 0.0 else xs[0] + SeqSum(xs[1..])
  }

  /** The left fold `reduce(add)` performs once it holds its first element:
      the accumulator plus the exact sum of the rest. */
  function FoldLeft(acc: real, xs: seq<real>): (r: real)
    decreases |xs|
    ensures r == acc + SeqSum(xs)
  {
    if xs == [] then acc else FoldLeft(acc + xs[0], xs[1..])
  }

  /** `stream.reduce(BigDecimal::add)`: absent exactly on an empty stream,
      otherwise the exact sum of its elements. */
  function Reduce(xs: seq<real>): (r: Option<real>)
    ensures r == if xs == [] then None else Some(SeqSum(xs))
  {
    if xs == [] then None else Some(FoldLeft(xs[0], xs[1..]))
  }

  /** The exact sum of a concatenation is the sum of the parts' sums. */
  lemma {:induction false} SeqSumAppend(a: seq<real>, b: seq<real>)
    ensures SeqSum(a + b) == SeqSum(a) + SeqSum(b)
  {
    if a == [] {
      assert a + b == b;
    } else {
      assert (a + b)[0] == a[0] && (a + b)[1..] == a[1..] + b;
      SeqSumAppend(a[1..], b);
    }
  }
}
