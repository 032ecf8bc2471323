/** Order-preserving filter and map over sequences. */
module Sequences {

  function Filter<T>(xs: seq<T>, keep: T -> bool): (r: seq<T>)
    ensures |r| <= |xs|
    decreases |xs|
  {
    if |xs| == 0 then []
    else (if keep(xs[0]) then [xs[0]] else []) + Filter(xs[1..], keep)
  }

  function Map<T, U>(xs: seq<T>, f: T -> U): (r: seq<U>)
    ensures |r| == |xs|
    ensures forall i :: 0 <= i < |xs| ==> r[i] == f(xs[i])
  {
    seq(|xs|, i requires 0 <= i < |xs| => f(xs[i]))
  }

  /** What `Filter` keeps: exactly the elements of `xs` that satisfy `keep`. */
  lemma {:induction false} FilterMember<T>(xs: seq<T>, keep: T -> bool, x: T)
    ensures x in Filter(xs, keep) <==> x in xs && keep(x)
    decreases |xs|
  {
    if |xs| > 0 {
      FilterMember(xs[1..], keep, x);
      assert xs == [xs[0]] + xs[1..];
    }
  }

  /** Under an injective `f`, `f(x)` shows up in the image exactly when `x` is in the source. */
  lemma MapInjectiveMember<T, U>(xs: seq<T>, f: T -> U, x: T)
    requires forall a, b :: f(a) == f(b) ==> a == b
    ensures f(x) in Map(xs, f) <==> x in xs
  {
    if f(x) in Map(xs, f) {
      var i :| 0 <= i < |xs| && Map(xs, f)[i] == f(x);
      assert xs[i] == x;
    }
    if x in xs {
      var i :| 0 <= i < |xs| && xs[i] == x;
      assert Map(xs, f)[i] == f(x);
    }
  }

  lemma MapAppend<T, U>(a: seq<T>, b: seq<T>, f: T -> U)
    ensures Map(a + b, f) == Map(a, f) + Map(b, f)
  {
    assert forall i :: 0 <= i < |a + b| ==> Map(a + b, f)[i] == (Map(a, f) + Map(b, f))[i];
  }

  /** `Filter` then `Map`, one element at a time. */
  lemma MapFilterCons<T, U>(xs: seq<T>, keep: T -> bool, f: T -> U)
    requires |xs| > 0
    ensures Map(Filter(xs, keep), f) == (if keep(xs[0]) then [f(xs[0])] else []) + Map(Filter(xs[1..], keep), f)
  {
    var kept := if keep(xs[0]) then [xs[0]] else [];
    var rest := Filter(xs[1..], keep);
    assert Filter(xs, keep) == kept + rest;
    MapAppend(kept, rest, f);
    assert Map(kept, f) == if keep(xs[0]) then [f(xs[0])] else [];
  }

  /** `Filter` then `Map` over four elements, written out. */
  lemma MapFilterOfFour<T, U>(xs: seq<T>, keep: T -> bool, f: T -> U)
    requires |xs| == 4
    ensures Map(Filter(xs, keep), f) ==
              (if keep(xs[0]) then [f(xs[0])] else [])
              + ((if keep(xs[1]) then [f(xs[1])] else [])
                 + ((if keep(xs[2]) then [f(xs[2])] else [])
                    + (if keep(xs[3]) then [f(xs[3])] else [])))
  {
    var t1, t2, t3 := xs[1..], xs[2..], xs[3..];
    assert t1[0] == xs[1] && t1[1..] == t2;
    assert t2[0] == xs[2] && t2[1..] == t3;
    assert t3[0] == xs[3] && t3[1..] == [];
    MapFilterCons(t3, keep, f);
    MapFilterCons(t2, keep, f);
    MapFilterCons(t1, keep, f);
    MapFilterCons(xs, keep, f);
  }

  ghost predicate NoDuplicates<T>(xs: seq<T>) {
    forall i, j :: 0 <= i < j < |xs| ==> xs[i] != xs[j]
  }

  /** `Filter` keeps a subsequence, so it cannot introduce a duplicate. */
  lemma {:induction false} FilterNoDuplicates<T>(xs: seq<T>, keep: T -> bool)
    requires NoDuplicates(xs)
    ensures NoDuplicates(Filter(xs, keep))
    decreases |xs|
  {
    if |xs| > 0 {
      var rest := Filter(xs[1..], keep);
      FilterNoDuplicates(xs[1..], keep);
      if keep(xs[0]) {
        FilterMember(xs[1..], keep, xs[0]);
        assert xs[0] !in xs[1..];
        var r := [xs[0]] + rest;
        forall i, j | 0 <= i < j < |r|
          ensures r[i] != r[j]
        {
          if i == 0 {
            assert r[j] == rest[j - 1];
          } else {
            assert r[i] == rest[i - 1] && r[j] == rest[j - 1];
          }
        }
      } else {
        assert Filter(xs, keep) == rest;
      }
    }
  }

  /** An injective `f` maps distinct elements to distinct images. */
  lemma MapNoDuplicates<T, U>(xs: seq<T>, f: T -> U)
    requires NoDuplicates(xs)
    requires forall a, b :: f(a) == f(b) ==> a == b
    ensures NoDuplicates(Map(xs, f))
  {
  }
}
