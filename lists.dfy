/** Keeping the elements of a list that pass a test, in order. */
module Lists {

  /** The elements of xs that pass p, in their order. */
  function Filter<T>(p: T -> bool, xs: seq<T>): (r: seq<T>)
    ensures |r| <= |xs|
  {
    if |xs| == 0 then []
    else Filter(p, xs[..|xs| - 1]) + if p(xs[|xs| - 1]) then [xs[|xs| - 1]] else []
  }

  /** Filter keeps every passing element as often as it occurs, and
      nothing else. */
  lemma {:induction false} FilterCounts<T>(p: T -> bool, xs: seq<T>, x: T)
    ensures multiset(Filter(p, xs))[x] == if p(x) then multiset(xs)[x] else 0
  {
    if |xs| > 0 {
      var init, last := xs[..|xs| - 1], xs[|xs| - 1];
      FilterCounts(p, init, x);
      assert xs == init + [last];
    }
  }

  /** A list whose every element passes is its own Filter. */
  lemma {:induction false} FilterIdentity<T>(p: T -> bool, xs: seq<T>)
    requires forall i :: 0 <= i < |xs| ==> p(xs[i])
    ensures Filter(p, xs) == xs
  {
    if |xs| > 0 {
      var init := xs[..|xs| - 1];
      FilterIdentity(p, init);
      assert xs == init + [xs[|xs| - 1]];
    }
  }

  /** Filter read from the front: the head is kept exactly when it passes. */
  lemma {:induction false} FilterCons<T>(p: T -> bool, x: T, xs: seq<T>)
    ensures Filter(p, [x] + xs) == (if p(x) then [x] else []) + Filter(p, xs)
  {
    if |xs| > 0 {
      var init, last := xs[..|xs| - 1], xs[|xs| - 1];
      FilterCons(p, x, init);
      assert [x] + xs == ([x] + init) + [last];
      assert ([x] + xs)[..|[x] + xs| - 1] == [x] + init;
    } else {
      assert [x] + xs == [x];
      assert [x][..0] == [];
    }
  }
}
