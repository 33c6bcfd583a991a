/** Row selection with a boolean mask (`base.loc[mask]`, `base[mask]`). */
module Rows {

  /** The elements of `xs` that `keep` accepts, in their order. */
  function Where<T>(xs: seq<T>, keep: T -> bool): (r: seq<T>)
    ensures |r| <= |xs|
    ensures forall x <- r :: x in xs && keep(x)
    ensures forall x <- xs :: keep(x) ==> x in r
    decreases |xs|
  {
    if xs == [] then []
    else (if keep(xs[0]) then [xs[0]] else []) + Where(xs[1..], keep)
  }

  /** A mask that accepts every element keeps the sequence as it is. */
  lemma {:induction false} WhereAll<T>(xs: seq<T>, keep: T -> bool)
    requires forall x <- xs :: keep(x)
    ensures Where(xs, keep) == xs
    decreases |xs|
  {
    if xs != [] {
      assert xs[0] in xs;
      WhereAll(xs[1..], keep);
      assert [xs[0]] + xs[1..] == xs;
    }
  }

  /** Masks that agree on every element select the same subsequence. */
  lemma {:induction false} WhereSame<T>(xs: seq<T>, a: T -> bool, b: T -> bool)
    requires forall x <- xs :: a(x) == b(x)
    ensures Where(xs, a) == Where(xs, b)
    decreases |xs|
  {
    if xs != [] {
      assert xs[0] in xs;
      WhereSame(xs[1..], a, b);
    }
  }

  /** Two masks applied one after the other select what their conjunction
      selects, in the same order and with every copy. */
  lemma {:induction false} WhereThen<T>(xs: seq<T>, a: T -> bool, b: T -> bool, both: T -> bool)
    requires forall x <- xs :: both(x) == (a(x) && b(x))
    ensures Where(Where(xs, a), b) == Where(xs, both)
    decreases |xs|
  {
    if xs != [] {
      var rest := Where(xs[1..], a);
      WhereThen(xs[1..], a, b, both);
      assert xs[0] in xs;
      if a(xs[0]) {
        var ys := [xs[0]] + rest;
        assert Where(xs, a) == ys;
        assert ys[0] == xs[0] && ys[1..] == rest;
      } else {
        assert Where(xs, a) == rest;
      }
    }
  }
}
