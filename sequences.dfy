/** `Array.prototype.filter` over sequences, and the order it keeps. */
module Sequences {

  /** `a` can be read off `b` left to right, skipping elements of `b`. */
  ghost predicate IsSubsequence<T>(a: seq<T>, b: seq<T>)
    decreases |b|
  {
    a == [] || (b != [] && ((a[0] == b[0] && IsSubsequence(a[1..], b[1..])) || IsSubsequence(a, b[1..])))
  }

  lemma {:induction false} SubsequenceTransitive<T>(a: seq<T>, b: seq<T>, c: seq<T>)
    requires IsSubsequence(a, b) && IsSubsequence(b, c)
    ensures IsSubsequence(a, c)
    decreases |c|
  {
    if a != [] {
      if IsSubsequence(b, c[1..]) {
        SubsequenceTransitive(a, b, c[1..]);
      } else if a[0] == b[0] && IsSubsequence(a[1..], b[1..]) {
        SubsequenceTransitive(a[1..], b[1..], c[1..]);
      } else {
        SubsequenceTransitive(a, b[1..], c[1..]);
      }
    }
  }

  /**
   * `xs.filter(p)`: the elements of `xs` that satisfy `p`, in their order in `xs`.
   */
  function Select<T(!new)>(xs: seq<T>, p: T -> bool): (r: seq<T>)
    ensures |r| <= |xs|
    ensures forall x :: x in r <==> x in xs && p(x)
    ensures IsSubsequence(r, xs)
    ensures forall x :: multiset(r)[x] == if p(x) then multiset(xs)[x] else 0
  {
    if xs == [] then []
    else
      assert xs == [xs[0]] + xs[1..];
      if p(xs[0]) then [xs[0]] + Select(xs[1..], p)
      else Select(xs[1..], p)
  }

  /** Filtering depends only on the predicate's values on the elements. */
  lemma {:induction false} SelectCongruent<T(!new)>(xs: seq<T>, p: T -> bool, q: T -> bool)
    requires forall x :: x in xs ==> p(x) == q(x)
    ensures Select(xs, p) == Select(xs, q)
  {
    if xs != [] {
      SelectCongruent(xs[1..], p, q);
    }
  }

  /** A predicate that holds everywhere keeps every element. */
  lemma {:induction false} SelectAll<T(!new)>(xs: seq<T>, p: T -> bool)
    requires forall x :: x in xs ==> p(x)
    ensures Select(xs, p) == xs
  {
    if xs != [] {
      SelectAll(xs[1..], p);
    }
  }
}
