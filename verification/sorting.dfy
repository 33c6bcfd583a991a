/** `sort_values(ascending=False)` on a numeric column: descending, NaN
    last. */
module Sorting {
  import opened Wrappers

  /** `a` may come before `b` in a descending order with NaN last. */
  predicate Precedes(a: Option<real>, b: Option<real>) {
    b.None? || (a.Some? && a.value >= b.value)
  }

  predicate SortedDesc<T>(xs: seq<T>, key: T -> Option<real>) {
    forall i, j :: 0 <= i < j < |xs| ==> Precedes(key(xs[i]), key(xs[j]))
  }

  function Insert<T>(x: T, ys: seq<T>, key: T -> Option<real>): (r: seq<T>)
    ensures multiset(r) == multiset(ys) + multiset{x}
    decreases |ys|
  {
    if ys == [] then [x]
    else if Precedes(key(x), key(ys[0])) then [x] + ys
    else
      assert ys == [ys[0]] + ys[1..];
      [ys[0]] + Insert(x, ys[1..], key)
  }

  lemma {:induction false} InsertSorted<T>(x: T, ys: seq<T>, key: T -> Option<real>)
    requires SortedDesc(ys, key)
    ensures SortedDesc(Insert(x, ys, key), key)
    decreases |ys|
  {
    if ys != [] && !Precedes(key(x), key(ys[0])) {
      var rest := Insert(x, ys[1..], key);
      InsertSorted(x, ys[1..], key);
      forall z <- rest ensures Precedes(key(ys[0]), key(z)) {
        assert z in multiset(rest);
        if z != x {
          assert z in ys[1..];
        }
      }
      var r := [ys[0]] + rest;
      forall i, j | 0 <= i < j < |r| ensures Precedes(key(r[i]), key(r[j])) {
        if i > 0 {
          assert r[i] == rest[i - 1] && r[j] == rest[j - 1];
        } else {
          assert r[j] in rest;
        }
      }
    }
  }

  /** The rows in descending key order, NaN last; the same rows. */
  function SortDesc<T>(xs: seq<T>, key: T -> Option<real>): (r: seq<T>)
    ensures SortedDesc(r, key)
    ensures multiset(r) == multiset(xs)
    ensures |r| == |xs|
    decreases |xs|
  {
    if xs == [] then []
    else
      var sorted := SortDesc(xs[1..], key);
      InsertSorted(xs[0], sorted, key);
      assert xs == [xs[0]] + xs[1..];
      Insert(xs[0], sorted, key)
  }

  /** Sorting keeps exactly the rows it was given. */
  lemma SortKeepsRows<T>(xs: seq<T>, key: T -> Option<real>)
    ensures forall x <- SortDesc(xs, key) :: x in xs
    ensures forall x <- xs :: x in SortDesc(xs, key)
  {
    var r := SortDesc(xs, key);
    assert forall x <- r :: x in multiset(xs);
    assert forall x <- xs :: x in multiset(r);
  }
}
