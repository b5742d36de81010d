/**
 * `Array.prototype.filter` on a sequence: the elements that satisfy a test,
 * in their original order.
 */
module Lists {

  /** The elements of `xs` for which `keep` holds, in the order of `xs`. */
  function Filter<T(==,!new)>(xs: seq<T>, keep: T -> bool): (r: seq<T>)
    ensures |r| <= |xs|
  {
    if xs == [] then []
    else
      assert xs == [xs[0]] + xs[1..];
      (if keep(xs[0]) then [xs[0]] else []) + Filter(xs[1..], keep)
  }

  /** An element is kept exactly when it is in the list and passes the test. */
  lemma {:induction false} FilterMembers<T(!new)>(xs: seq<T>, keep: T -> bool)
    ensures forall x :: x in Filter(xs, keep) <==> x in xs && keep(x)
  {
    if xs != [] {
      FilterMembers(xs[1..], keep);
      assert xs == [xs[0]] + xs[1..];
    }
  }

  /** Filtering a concatenation filters each half: kept elements keep their relative order. */
  lemma {:induction false} FilterAppend<T(!new)>(a: seq<T>, b: seq<T>, keep: T -> bool)
    ensures Filter(a + b, keep) == Filter(a, keep) + Filter(b, keep)
  {
    if a == [] {
      assert a + b == b;
    } else {
      assert (a + b)[0] == a[0];
      assert (a + b)[1..] == a[1..] + b;
      FilterAppend(a[1..], b, keep);
      var head := if keep(a[0]) then [a[0]] else [];
      calc {
        Filter(a + b, keep);
        head + Filter(a[1..] + b, keep);
        head + (Filter(a[1..], keep) + Filter(b, keep));
        (head + Filter(a[1..], keep)) + Filter(b, keep);
        Filter(a, keep) + Filter(b, keep);
      }
    }
  }

  /** When every element passes, filtering changes nothing. */
  lemma {:induction false} FilterKeepsAll<T(!new)>(xs: seq<T>, keep: T -> bool)
    requires forall x :: x in xs ==> keep(x)
    ensures Filter(xs, keep) == xs
  {
    if xs != [] {
      assert xs[0] in xs;
      forall x | x in xs[1..] ensures keep(x) { assert x in xs; }
      FilterKeepsAll(xs[1..], keep);
      assert xs == [xs[0]] + xs[1..];
    }
  }

  /** Filtering twice by the same test is filtering once. */
  lemma FilterIdempotent<T(!new)>(xs: seq<T>, keep: T -> bool)
    ensures Filter(Filter(xs, keep), keep) == Filter(xs, keep)
  {
    FilterMembers(xs, keep);
    FilterKeepsAll(Filter(xs, keep), keep);
  }

  /** Each value keeps all of its copies when it passes the test and loses all of them otherwise. */
  lemma {:induction false} FilterCount<T(!new)>(xs: seq<T>, keep: T -> bool, x: T)
    ensures multiset(Filter(xs, keep))[x] == if keep(x) then multiset(xs)[x] else 0
  {
    if xs != [] {
      FilterCount(xs[1..], keep, x);
      assert xs == [xs[0]] + xs[1..];
      var head := if keep(xs[0]) then [xs[0]] else [];
      assert multiset(Filter(xs, keep)) == multiset(head) + multiset(Filter(xs[1..], keep));
    }
  }
}
