/** java.util.List.sort with a comparator that orders by descending integer
    key: a stable sort, whose result is fixed by that contract alone. */
module StableSort {

  /** No element has a higher key than one before it. */
  predicate SortedDesc<T>(key: T -> int, xs: seq<T>)
  {
    forall i, j :: 0 <= i < j < |xs| ==> key(xs[i]) >= key(xs[j])
  }

  /** The elements with key k, in their order. */
  function WithKey<T>(key: T -> int, xs: seq<T>, k: int): (r: seq<T>)
    ensures |r| <= |xs|
  {
    if |xs| == 0 then []
    else (if key(xs[0]) == k then [xs[0]] else []) + WithKey(key, xs[1..], k)
  }

  /** Only elements of xs with key k are picked. */
  lemma {:induction false} WithKeyMember<T>(key: T -> int, xs: seq<T>, k: int, x: T)
    requires x in WithKey(key, xs, k)
    ensures x in xs && key(x) == k
  {
    if key(xs[0]) == k && x == xs[0] {
    } else {
      WithKeyMember(key, xs[1..], k, x);
    }
  }

  /** x placed in front of the first element whose key is not higher. */
  function Insert<T>(key: T -> int, x: T, s: seq<T>): (r: seq<T>)
    ensures |r| == |s| + 1
    ensures multiset(r) == multiset(s) + multiset{x}
  {
    if |s| == 0 || key(x) >= key(s[0]) then [x] + s
    else
      assert s == [s[0]] + s[1..];
      [s[0]] + Insert(key, x, s[1..])
  }

  /** A stable sort by descending key, written as insertion sort; any
      stable sort gives the same result (StableSortIsSortDesc). */
  function SortDesc<T>(key: T -> int, xs: seq<T>): (r: seq<T>)
    ensures |r| == |xs|
    ensures multiset(r) == multiset(xs)
  {
    if |xs| == 0 then []
    else
      assert xs == [xs[0]] + xs[1..];
      Insert(key, xs[0], SortDesc(key, xs[1..]))
  }

  /** Insertion keeps a sorted list sorted. */
  lemma {:induction false} InsertSorted<T>(key: T -> int, x: T, s: seq<T>)
    requires SortedDesc(key, s)
    ensures SortedDesc(key, Insert(key, x, s))
  {
    if |s| == 0 || key(x) >= key(s[0]) {
      ConsSorted(key, x, s);
    } else {
      SortedTail(key, s);
      InsertSorted(key, x, s[1..]);
      var t := Insert(key, x, s[1..]);
      forall y | y in t
        ensures key(y) <= key(s[0])
      {
        assert y in multiset(t);
        if y != x {
          assert y in multiset(s[1..]);
          SortedHead(key, s, y);
        }
      }
      ConsSorted(key, s[0], t);
    }
  }

  /** An element no lower than anything of a sorted list can go in front. */
  lemma ConsSorted<T>(key: T -> int, y: T, t: seq<T>)
    requires SortedDesc(key, t) && forall z :: z in t ==> key(z) <= key(y)
    ensures SortedDesc(key, [y] + t)
  {
    var r := [y] + t;
    forall i, j | 0 <= i < j < |r|
      ensures key(r[i]) >= key(r[j])
    {
      assert r[j] == t[j - 1];
      if i > 0 {
        assert r[i] == t[i - 1];
      }
    }
  }


  /** The sort orders its result by descending key. */
  lemma {:induction false} SortDescSorted<T>(key: T -> int, xs: seq<T>)
    ensures SortedDesc(key, SortDesc(key, xs))
  {
    if |xs| > 0 {
      SortDescSorted(key, xs[1..]);
      InsertSorted(key, xs[0], SortDesc(key, xs[1..]));
    }
  }

  /** Insertion puts x ahead of the elements with its own key. */
  lemma {:induction false} InsertWithKey<T>(key: T -> int, x: T, s: seq<T>, k: int)
    ensures WithKey(key, Insert(key, x, s), k) ==
            if key(x) == k then [x] + WithKey(key, s, k) else WithKey(key, s, k)
  {
    if |s| == 0 || key(x) >= key(s[0]) {
      WithKeyCons(key, x, s, k);
    } else {
      InsertWithKey(key, x, s[1..], k);
      InsertBehind(key, x, s, k);
    }
  }

  /** The step of InsertWithKey where x goes behind the first element. */
  lemma InsertBehind<T>(key: T -> int, x: T, s: seq<T>, k: int)
    requires |s| > 0 && key(x) < key(s[0])
    requires WithKey(key, Insert(key, x, s[1..]), k) ==
             if key(x) == k then [x] + WithKey(key, s[1..], k) else WithKey(key, s[1..], k)
    ensures WithKey(key, Insert(key, x, s), k) ==
            if key(x) == k then [x] + WithKey(key, s, k) else WithKey(key, s, k)
  {
    var t := Insert(key, x, s[1..]);
    assert Insert(key, x, s) == [s[0]] + t;
    WithKeyCons(key, s[0], t, k);
    WithKeyCons(key, s[0], s[1..], k);
    assert s == [s[0]] + s[1..];
  }

  /** WithKey of a list with a given first element. */
  lemma WithKeyCons<T>(key: T -> int, y: T, t: seq<T>, k: int)
    ensures WithKey(key, [y] + t, k) == (if key(y) == k then [y] else []) + WithKey(key, t, k)
  {
    assert ([y] + t)[0] == y && ([y] + t)[1..] == t;
  }


  /** The sort is stable: the elements of any one key keep their order. */
  lemma {:induction false} SortDescStable<T>(key: T -> int, xs: seq<T>, k: int)
    ensures WithKey(key, SortDesc(key, xs), k) == WithKey(key, xs, k)
  {
    if |xs| > 0 {
      SortDescStable(key, xs[1..], k);
      InsertWithKey(key, xs[0], SortDesc(key, xs[1..]), k);
    }
  }

  /** Sorting what is already sorted leaves it as it is. */
  lemma {:induction false} SortDescSortedIdentity<T>(key: T -> int, xs: seq<T>)
    requires SortedDesc(key, xs)
    ensures SortDesc(key, xs) == xs
  {
    if |xs| > 0 {
      assert SortedDesc(key, xs[1..]) by {
        forall i, j | 0 <= i < j < |xs[1..]|
          ensures key(xs[1..][i]) >= key(xs[1..][j])
        {
          assert xs[1..][i] == xs[i + 1] && xs[1..][j] == xs[j + 1];
        }
      }
      SortDescSortedIdentity(key, xs[1..]);
      assert xs == [xs[0]] + xs[1..];
    }
  }

  /** A sorted list has nothing above its first element. */
  lemma SortedHead<T>(key: T -> int, s: seq<T>, x: T)
    requires SortedDesc(key, s) && x in s
    ensures key(x) <= key(s[0])
  {
    var i :| 0 <= i < |s| && s[i] == x;
    if i > 0 {
      assert key(s[0]) >= key(s[i]);
    }
  }

  /** The first element of a list heads the elements with its key. */
  lemma WithKeyHead<T>(key: T -> int, s: seq<T>)
    requires |s| > 0
    ensures WithKey(key, s, key(s[0])) == [s[0]] + WithKey(key, s[1..], key(s[0]))
    ensures forall k :: k != key(s[0]) ==> WithKey(key, s, k) == WithKey(key, s[1..], k)
  {
  }

  /** The tail of a sorted list is sorted. */
  lemma SortedTail<T>(key: T -> int, s: seq<T>)
    requires |s| > 0 && SortedDesc(key, s)
    ensures SortedDesc(key, s[1..])
  {
    forall i, j | 0 <= i < j < |s| - 1
      ensures key(s[1..][i]) >= key(s[1..][j])
    {
      assert s[1..][i] == s[i + 1] && s[1..][j] == s[j + 1];
    }
  }

  /** Sorted lists with the same elements of every key start alike. */
  lemma SameHead<T>(key: T -> int, a: seq<T>, b: seq<T>)
    requires |a| > 0 && SortedDesc(key, a) && SortedDesc(key, b)
    requires forall k :: WithKey(key, a, k) == WithKey(key, b, k)
    ensures |b| > 0 && a[0] == b[0]
  {
    var ka := key(a[0]);
    WithKeyHead(key, a);
    assert WithKey(key, a, ka) == WithKey(key, b, ka);
    WithKeyMember(key, b, ka, a[0]);
    SortedHead(key, b, a[0]);
    var kb := key(b[0]);
    WithKeyHead(key, b);
    assert WithKey(key, a, kb) == WithKey(key, b, kb);
    WithKeyMember(key, a, kb, b[0]);
    SortedHead(key, a, b[0]);
    assert ka == kb;
    assert WithKey(key, a, ka)[0] == a[0] && WithKey(key, b, kb)[0] == b[0];
  }

  /** Removing the same head leaves the same elements of key k. */
  lemma SameTail<T>(key: T -> int, a: seq<T>, b: seq<T>, k: int)
    requires |a| > 0 && |b| > 0 && a[0] == b[0]
    requires WithKey(key, a, k) == WithKey(key, b, k)
    ensures WithKey(key, a[1..], k) == WithKey(key, b[1..], k)
  {
    var p := if key(a[0]) == k then [a[0]] else [];
    var x, y := WithKey(key, a[1..], k), WithKey(key, b[1..], k);
    assert WithKey(key, a, k) == p + x;
    assert WithKey(key, b, k) == p + y;
    assert x == (p + x)[|p|..];
    assert y == (p + y)[|p|..];
  }

  /** Two sorted lists with the same elements of every key, in the same
      order, are the same list: the stable descending order is unique. */
  lemma {:induction false} SortedUnique<T>(key: T -> int, a: seq<T>, b: seq<T>)
    requires SortedDesc(key, a) && SortedDesc(key, b)
    requires forall k :: WithKey(key, a, k) == WithKey(key, b, k)
    ensures a == b
    decreases |a| + |b|
  {
    if |a| > 0 {
      SameHead(key, a, b);
      forall k
        ensures WithKey(key, a[1..], k) == WithKey(key, b[1..], k)
      {
        SameTail(key, a, b, k);
      }
      SortedTail(key, a);
      SortedTail(key, b);
      SortedUnique(key, a[1..], b[1..]);
      assert a == [a[0]] + a[1..] && b == [b[0]] + b[1..];
    } else if |b| > 0 {
      SameHead(key, b, a);
    }
  }

  /** Any stable descending sort of xs gives SortDesc's result. */
  lemma StableSortIsSortDesc<T>(key: T -> int, xs: seq<T>, out: seq<T>)
    requires SortedDesc(key, out) && forall k :: WithKey(key, out, k) == WithKey(key, xs, k)
    ensures out == SortDesc(key, xs)
  {
    SortDescSorted(key, xs);
    forall k
      ensures WithKey(key, out, k) == WithKey(key, SortDesc(key, xs), k)
    {
      SortDescStable(key, xs, k);
    }
    SortedUnique(key, out, SortDesc(key, xs));
  }
}
