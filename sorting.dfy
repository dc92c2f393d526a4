/** `Array.prototype.sort` with a comparator, as the dashboard uses it.

    `SortBy` is a stable insertion sort that reads the comparator the way
    ECMAScript's SortCompare does: a NaN result counts as +0 ("equal"), and
    a positive result puts the first argument after the second. Any stable
    sort gives the same result for a comparator that is a consistent
    ordering. For a comparator that always answers NaN, ECMAScript leaves
    the order implementation-defined; reading NaN as +0 in a stable sort,
    which keeps the input order, is the model's assumption.

    `SortDescending` is the in-place sort of an array by a numeric key,
    largest first: `a.sort((x, y) => key(y) - key(x))`. */
module Sorting {
  import opened Base

  /** How SortCompare reads a comparator's answer: NaN counts as +0. */
  function Verdict(v: JsNum): int
  {
    if v.NaN? then 0 else v.n
  }

  /** Puts `x` after the last element of `s` that does not compare greater
      than it. */
  function Insert<T>(x: T, s: seq<T>, cmp: (T, T) -> JsNum): (r: seq<T>)
    ensures multiset(r) == multiset(s) + multiset{x}
    ensures |r| == |s| + 1
  {
    if s == [] then [x]
    else if Verdict(cmp(s[|s| - 1], x)) > 0 then
      var init := s[..|s| - 1];
      assert s == init + [s[|s| - 1]];
      Insert(x, init, cmp) + [s[|s| - 1]]
    else s + [x]
  }

  /** `s.slice().sort(cmp)`. */
  function SortBy<T>(s: seq<T>, cmp: (T, T) -> JsNum): (r: seq<T>)
    ensures multiset(r) == multiset(s)
    ensures |r| == |s|
  {
    if s == [] then []
    else
      var init := s[..|s| - 1];
      assert s == init + [s[|s| - 1]];
      Insert(s[|s| - 1], SortBy(init, cmp), cmp)
  }

  ghost predicate SortedByKey<T>(s: seq<T>, key: T -> int)
  {
    forall i, j :: 0 <= i < j < |s| ==> key(s[i]) <= key(s[j])
  }

  /** The comparator answers `key(a) - key(b)` in sign: a consistent ordering. */
  ghost predicate OrdersByKey<T(!new)>(cmp: (T, T) -> JsNum, key: T -> int)
  {
    forall a, b :: cmp(a, b).Num? && (cmp(a, b).n > 0 <==> key(a) > key(b))
  }

  lemma {:induction false} InsertKeepsSorted<T(!new)>(x: T, s: seq<T>, cmp: (T, T) -> JsNum, key: T -> int)
    requires OrdersByKey(cmp, key)
    requires SortedByKey(s, key)
    ensures SortedByKey(Insert(x, s, cmp), key)
  {
    if s != [] && Verdict(cmp(s[|s| - 1], x)) > 0 {
      var init, last := s[..|s| - 1], s[|s| - 1];
      InsertKeepsSorted(x, init, cmp, key);
      var r := Insert(x, init, cmp);
      forall y | y in r ensures key(y) <= key(last) {
        assert y in multiset(r);
        if y != x {
          assert y in multiset(init);
          var i :| 0 <= i < |init| && init[i] == y;
          assert s[i] == y;
        }
      }
      assert forall i :: 0 <= i < |r| ==> r[i] in r;
    }
  }

  /** With a comparator that orders by a key, the result is sorted by it. */
  lemma {:induction false} SortByKeySorts<T(!new)>(s: seq<T>, cmp: (T, T) -> JsNum, key: T -> int)
    requires OrdersByKey(cmp, key)
    ensures SortedByKey(SortBy(s, cmp), key)
  {
    if s != [] {
      SortByKeySorts(s[..|s| - 1], cmp, key);
      InsertKeepsSorted(s[|s| - 1], SortBy(s[..|s| - 1], cmp), cmp, key);
    }
  }

  /** An element that compares "not greater" than the last one joins the end. */
  lemma InsertAtEnd<T>(x: T, s: seq<T>, cmp: (T, T) -> JsNum)
    requires s != [] ==> Verdict(cmp(s[|s| - 1], x)) <= 0
    ensures Insert(x, s, cmp) == s + [x]
  {
  }

  /** A comparator that answers NaN for every pair of the list's elements
      never moves anything: the sort returns its input unchanged. */
  lemma {:induction false} NaNComparatorKeepsOrder<T>(s: seq<T>, cmp: (T, T) -> JsNum)
    requires forall a, b :: a in s && b in s ==> cmp(a, b).NaN?
    ensures SortBy(s, cmp) == s
  {
    if s != [] {
      var init, last := s[..|s| - 1], s[|s| - 1];
      assert s == init + [last];
      assert forall a :: a in init ==> a in s;
      NaNComparatorKeepsOrder(init, cmp);
      if init != [] {
        assert init[|init| - 1] in s;
      }
      InsertAtEnd(last, init, cmp);
    }
  }

  /** `s.map(f)`. */
  function Project<T, U>(s: seq<T>, f: T -> U): (r: seq<U>)
    ensures |r| == |s| && forall i :: 0 <= i < |s| ==> r[i] == f(s[i])
  {
    seq(|s|, i requires 0 <= i < |s| => f(s[i]))
  }

  lemma ProjectAppend<T, U>(a: seq<T>, x: T, f: T -> U)
    ensures Project(a + [x], f) == Project(a, f) + [f(x)]
  {
  }

  lemma {:induction false} InsertProjects<T, U>(x: T, s: seq<T>, cmp: (T, T) -> JsNum, f: T -> U)
    ensures multiset(Project(Insert(x, s, cmp), f)) == multiset(Project(s, f)) + multiset{f(x)}
  {
    if s == [] {
      assert Project([x], f) == [f(x)];
    } else if Verdict(cmp(s[|s| - 1], x)) > 0 {
      var init, last := s[..|s| - 1], s[|s| - 1];
      InsertProjects(x, init, cmp, f);
      assert s == init + [last];
      InsertBeforeLast(x, init, last, cmp, f);
    } else {
      InsertAtEnd(x, s, cmp);
      ProjectAppend(s, x, f);
    }
  }

  /** The step of `InsertProjects` where `x` goes before the last element. */
  lemma InsertBeforeLast<T, U>(x: T, init: seq<T>, last: T, cmp: (T, T) -> JsNum, f: T -> U)
    requires Verdict(cmp(last, x)) > 0
    requires multiset(Project(Insert(x, init, cmp), f)) == multiset(Project(init, f)) + multiset{f(x)}
    ensures multiset(Project(Insert(x, init + [last], cmp), f)) == multiset(Project(init + [last], f)) + multiset{f(x)}
  {
    var s := init + [last];
    assert s[..|s| - 1] == init;
    var r0 := Insert(x, init, cmp);
    assert Insert(x, s, cmp) == r0 + [last];
    ProjectAppend(r0, last, f);
    ProjectAppend(init, last, f);
  }

  /** Sorting moves whole elements: any projection of them keeps its multiset. */
  lemma {:induction false} SortByProjects<T, U>(s: seq<T>, cmp: (T, T) -> JsNum, f: T -> U)
    ensures multiset(Project(SortBy(s, cmp), f)) == multiset(Project(s, f))
  {
    if s != [] {
      var init, last := s[..|s| - 1], s[|s| - 1];
      assert s == init + [last];
      SortByProjects(init, cmp, f);
      InsertProjects(last, SortBy(init, cmp), cmp, f);
      ProjectAppend(init, last, f);
    }
  }

  ghost predicate SortedDescending<T>(s: seq<T>, key: T -> int)
  {
    forall i, j :: 0 <= i < j < |s| ==> key(s[i]) >= key(s[j])
  }

  method Swap<T>(a: array<T>, i: int, j: int)
    requires 0 <= i < a.Length && 0 <= j < a.Length
    modifies a
    ensures a[i] == old(a[j]) && a[j] == old(a[i])
    ensures forall k :: 0 <= k < a.Length && k != i && k != j ==> a[k] == old(a[k])
    ensures multiset(a[..]) == old(multiset(a[..]))
  {
    a[i], a[j] := a[j], a[i];
  }

  /** `a.sort((x, y) => key(y) - key(x))`: in place, largest key first, the
      same elements as before. */
  method SortDescending<T>(a: array<T>, key: T -> int)
    modifies a
    ensures SortedDescending(a[..], key)
    ensures multiset(a[..]) == old(multiset(a[..]))
  {
    if a.Length == 0 { return; }
    var i := 1;
    while i < a.Length
      invariant 1 <= i <= a.Length
      invariant SortedDescending(a[..i], key)
      invariant multiset(a[..]) == old(multiset(a[..]))
    {
      SiftLeft(a, i, key);
      i := i + 1;
    }
    assert a[..a.Length] == a[..];
  }

  /** Moves `a[i]` left past every element with a smaller key, so that the
      first `i + 1` elements are sorted. */
  method SiftLeft<T>(a: array<T>, i: int, key: T -> int)
    requires 1 <= i < a.Length
    requires SortedDescending(a[..i], key)
    modifies a
    ensures SortedDescending(a[..i + 1], key)
    ensures multiset(a[..]) == old(multiset(a[..]))
  {
    var j := i;
    while j > 0 && key(a[j - 1]) < key(a[j])
      invariant 0 <= j <= i
      invariant multiset(a[..]) == old(multiset(a[..]))
      invariant forall k, l :: 0 <= k < l <= i && k != j && l != j ==> key(a[k]) >= key(a[l])
      invariant forall k, l :: 0 <= k < j < l <= i ==> key(a[k]) >= key(a[l])
      invariant forall l :: j < l <= i ==> key(a[j]) >= key(a[l])
    {
      Swap(a, j - 1, j);
      j := j - 1;
    }
  }
}
