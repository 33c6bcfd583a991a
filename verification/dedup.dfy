/** Keeping the first row of every key (`drop_duplicates(subset=...)`,
    keep="first"), and the "append if not yet present" fold. */
module Dedup {

  /** The keys the elements of `xs` carry, in order. */
  function Keys<T, K>(xs: seq<T>, key: T -> K): (ks: seq<K>)
    ensures |ks| == |xs| && forall i :: 0 <= i < |xs| ==> ks[i] == key(xs[i])
  {
    seq(|xs|, i requires 0 <= i < |xs| => key(xs[i]))
  }

  /** No two elements share a key. */
  ghost predicate DistinctKeys<T, K>(xs: seq<T>, key: T -> K) {
    forall i, j :: 0 <= i < j < |xs| ==> key(xs[i]) != key(xs[j])
  }

  /** No element of `xs[..i]` has the key of `xs[i]`. */
  ghost predicate FirstAt<T, K>(xs: seq<T>, key: T -> K, i: nat)
    requires i < |xs|
  {
    forall j :: 0 <= j < i ==> key(xs[j]) != key(xs[i])
  }

  /** The first element of every key, in order. */
  function FirstOccurrences<T, K(==)>(xs: seq<T>, key: T -> K): (r: seq<T>)
    ensures |r| <= |xs|
    ensures DistinctKeys(r, key)
    ensures forall y <- r :: y in xs
    ensures forall x <- xs :: key(x) in Keys(r, key)
    decreases |xs|
  {
    if xs == [] then []
    else
      var init, last := xs[..|xs| - 1], xs[|xs| - 1];
      var r := FirstOccurrences(init, key);
      assert xs == init + [last];
      if key(last) in Keys(r, key) then r
      else
        assert forall y <- r :: key(y) != key(last) by {
          forall y <- r ensures key(y) != key(last) {
            var i :| 0 <= i < |r| && r[i] == y;
            assert Keys(r, key)[i] == key(y);
          }
        }
        var grown := r + [last];
        forall x <- xs ensures key(x) in Keys(grown, key) {
          if x == last {
            assert Keys(grown, key)[|r|] == key(x);
          } else {
            assert x in init;
            var i :| 0 <= i < |r| && Keys(r, key)[i] == key(x);
            assert Keys(grown, key)[i] == key(x);
          }
        }
        grown
  }

  /** The elements kept are exactly those that come first with their key. */
  lemma {:induction false} FirstOccurrencesExact<T, K>(xs: seq<T>, key: T -> K)
    ensures forall i :: 0 <= i < |xs| && FirstAt(xs, key, i) ==> xs[i] in FirstOccurrences(xs, key)
    ensures forall y <- FirstOccurrences(xs, key) ::
      exists i :: 0 <= i < |xs| && xs[i] == y && FirstAt(xs, key, i)
    decreases |xs|
  {
    if xs != [] {
      var init, last := xs[..|xs| - 1], xs[|xs| - 1];
      FirstOccurrencesExact(init, key);
      var r := FirstOccurrences(init, key);
      assert xs == init + [last];
      forall i | 0 <= i < |init| ensures FirstAt(xs, key, i) == FirstAt(init, key, i) {
        assert forall j :: 0 <= j <= i ==> xs[j] == init[j];
      }
      var lastFirst := FirstAt(xs, key, |xs| - 1);
      if key(last) in Keys(r, key) {
        var i :| 0 <= i < |r| && Keys(r, key)[i] == key(last);
        assert r[i] in init;
        var j :| 0 <= j < |init| && init[j] == r[i];
        assert xs[j] == init[j];
        assert !lastFirst;
      }
      if !lastFirst {
        var j :| 0 <= j < |xs| - 1 && key(xs[j]) == key(last);
        assert init[j] in init;
      }
      forall y <- FirstOccurrences(xs, key)
        ensures exists i :: 0 <= i < |xs| && xs[i] == y && FirstAt(xs, key, i)
      {
        if y in r {
          var i :| 0 <= i < |init| && init[i] == y && FirstAt(init, key, i);
          assert xs[i] == y && FirstAt(xs, key, i);
        } else {
          assert xs[|xs| - 1] == y && FirstAt(xs, key, |xs| - 1);
        }
      }
    }
  }
}
