/** The fold behind every aggregation of the dashboard: walk a list of
    records once and accumulate a weight per key into a dictionary. The
    specification side says what each accumulated entry is (a sum over the
    records that carry the key), and the lemmas say that sums reconcile
    across groupings. */
module Folds {

  /** No key is listed twice. */
  ghost predicate Distinct<K>(ks: seq<K>)
  {
    forall i, j :: 0 <= i < j < |ks| ==> ks[i] != ks[j]
  }

  /** Sum of `w` over the records, left to right. */
  function Sum<T>(xs: seq<T>, w: T -> int): int
  {
    if xs == [] then 0 else Sum(xs[..|xs| - 1], w) + w(xs[|xs| - 1])
  }

  /** The records whose key is `k`, in input order. */
  function Select<T, K(==)>(xs: seq<T>, key: T -> K, k: K): (r: seq<T>)
    ensures |r| <= |xs|
    ensures forall i :: 0 <= i < |r| ==> key(r[i]) == k
    ensures forall x :: x in xs && key(x) == k ==> x in r
    ensures forall x :: x in r ==> x in xs
  {
    if xs == [] then []
    else
      var kept := Select(xs[..|xs| - 1], key, k);
      var last := xs[|xs| - 1];
      assert forall x :: x in xs ==> x in xs[..|xs| - 1] || x == last;
      if key(last) == k then kept + [last] else kept
  }

  /** The value a group-by accumulates under key `k`. */
  function KeySum<T, K(==)>(xs: seq<T>, key: T -> K, w: T -> int, k: K): int
  {
    Sum(Select(xs, key, k), w)
  }

  /** The value a two-level group-by accumulates under `(a, b)`. */
  function PairSum<T, K1(==), K2(==)>(xs: seq<T>, key1: T -> K1, key2: T -> K2, w: T -> int, a: K1, b: K2): int
  {
    KeySum(Select(xs, key1, a), key2, w, b)
  }

  /** The keys some record carries. */
  ghost function KeysOf<T, K>(xs: seq<T>, key: T -> K): set<K>
  {
    set x | x in xs :: key(x)
  }

  /** Sum of the group values along a list of keys. */
  function SumKeys<T, K(==)>(ks: seq<K>, xs: seq<T>, key: T -> K, w: T -> int): int
  {
    if ks == [] then 0 else KeySum(xs, key, w, ks[0]) + SumKeys(ks[1..], xs, key, w)
  }

  lemma {:induction false} SumKeysAppend<T, K>(ks: seq<K>, k: K, xs: seq<T>, key: T -> K, w: T -> int)
    ensures SumKeys(ks + [k], xs, key, w) == SumKeys(ks, xs, key, w) + KeySum(xs, key, w, k)
  {
    if ks != [] {
      assert (ks + [k])[1..] == ks[1..] + [k];
      SumKeysAppend(ks[1..], k, xs, key, w);
    } else {
      assert ([] + [k])[1..] == [];
    }
  }

  /** Sum of `w` over the records whose key is listed in `ks`. */
  function SumListed<T, K(==)>(xs: seq<T>, key: T -> K, ks: seq<K>, w: T -> int): int
  {
    if xs == [] then 0
    else SumListed(xs[..|xs| - 1], key, ks, w) + (if key(xs[|xs| - 1]) in ks then w(xs[|xs| - 1]) else 0)
  }

  lemma SelectSnoc<T, K>(xs: seq<T>, x: T, key: T -> K, k: K)
    ensures Select(xs + [x], key, k) == if key(x) == k then Select(xs, key, k) + [x] else Select(xs, key, k)
  {
    assert (xs + [x])[..|xs|] == xs;
  }

  /** Adding one record moves exactly its own group, by its own weight. */
  lemma KeySumSnoc<T, K>(xs: seq<T>, x: T, key: T -> K, w: T -> int, k: K)
    ensures KeySum(xs + [x], key, w, k) == KeySum(xs, key, w, k) + (if key(x) == k then w(x) else 0)
  {
    SelectSnoc(xs, x, key, k);
    var s := Select(xs, key, k);
    assert (s + [x])[..|s|] == s;
  }

  /** A key no record carries accumulates nothing: missing keys read as 0. */
  lemma {:induction false} AbsentKeySumsToZero<T, K>(xs: seq<T>, key: T -> K, w: T -> int, k: K)
    requires k !in KeysOf(xs, key)
    ensures Select(xs, key, k) == []
    ensures KeySum(xs, key, w, k) == 0
  {
    if xs != [] {
      assert xs[..|xs| - 1] + [xs[|xs| - 1]] == xs;
      AbsentKeySumsToZero(xs[..|xs| - 1], key, w, k);
      SelectSnoc(xs[..|xs| - 1], xs[|xs| - 1], key, k);
    }
  }

  lemma {:induction false} SumKeysSnoc<T, K>(ks: seq<K>, xs: seq<T>, x: T, key: T -> K, w: T -> int)
    requires Distinct(ks)
    ensures SumKeys(ks, xs + [x], key, w) == SumKeys(ks, xs, key, w) + (if key(x) in ks then w(x) else 0)
  {
    if ks != [] {
      KeySumSnoc(xs, x, key, w, ks[0]);
      SumKeysSnoc(ks[1..], xs, x, key, w);
      assert key(x) in ks <==> key(x) == ks[0] || key(x) in ks[1..];
      assert key(x) == ks[0] ==> key(x) !in ks[1..];
    }
  }

  /** Summing the groups along duplicate-free keys adds every record whose
      key is listed exactly once. */
  lemma {:induction false} SumKeysIsSumListed<T, K>(ks: seq<K>, xs: seq<T>, key: T -> K, w: T -> int)
    requires Distinct(ks)
    ensures SumKeys(ks, xs, key, w) == SumListed(xs, key, ks, w)
  {
    if xs == [] {
      SumKeysOfNothing(ks, key, w);
    } else {
      var init, last := xs[..|xs| - 1], xs[|xs| - 1];
      assert init + [last] == xs;
      SumKeysIsSumListed(ks, init, key, w);
      SumKeysSnoc(ks, init, last, key, w);
    }
  }

  lemma {:induction false} SumKeysOfNothing<T, K>(ks: seq<K>, key: T -> K, w: T -> int)
    ensures SumKeys(ks, [], key, w) == 0
  {
    if ks != [] {
      SumKeysOfNothing(ks[1..], key, w);
    }
  }

  lemma {:induction false} SumListedCoversAll<T, K>(xs: seq<T>, key: T -> K, ks: seq<K>, w: T -> int)
    requires KeysOf(xs, key) <= set k | k in ks
    ensures SumListed(xs, key, ks, w) == Sum(xs, w)
  {
    if xs != [] {
      var init := xs[..|xs| - 1];
      assert KeysOf(init, key) <= KeysOf(xs, key);
      SumListedCoversAll(init, key, ks, w);
      assert key(xs[|xs| - 1]) in KeysOf(xs, key);
    }
  }

  /** Totals reconcile across groupings: summing the group values along any
      duplicate-free list of keys that covers every record's key gives the
      grand total. */
  lemma GroupsReconcile<T, K>(ks: seq<K>, xs: seq<T>, key: T -> K, w: T -> int)
    requires Distinct(ks)
    requires KeysOf(xs, key) <= set k | k in ks
    ensures SumKeys(ks, xs, key, w) == Sum(xs, w)
  {
    SumKeysIsSumListed(ks, xs, key, w);
    SumListedCoversAll(xs, key, ks, w);
  }

  /** Any two groupings of the same records reconcile with each other. */
  lemma GroupingsAgree<T, K1, K2>(ks1: seq<K1>, key1: T -> K1, ks2: seq<K2>, key2: T -> K2, xs: seq<T>, w: T -> int)
    requires Distinct(ks1) && KeysOf(xs, key1) <= set k | k in ks1
    requires Distinct(ks2) && KeysOf(xs, key2) <= set k | k in ks2
    ensures SumKeys(ks1, xs, key1, w) == SumKeys(ks2, xs, key2, w)
  {
    GroupsReconcile(ks1, xs, key1, w);
    GroupsReconcile(ks2, xs, key2, w);
  }

  /** Within the group `a` of a two-level grouping, the inner groups add up
      to the outer group's value. */
  lemma InnerGroupsAddUp<T, K1, K2>(ks: seq<K2>, xs: seq<T>, key1: T -> K1, key2: T -> K2, w: T -> int, a: K1)
    requires Distinct(ks)
    requires forall x :: x in xs && key1(x) == a ==> key2(x) in ks
    ensures SumKeys(ks, Select(xs, key1, a), key2, w) == KeySum(xs, key1, w, a)
  {
    var sel := Select(xs, key1, a);
    forall k | k in KeysOf(sel, key2) ensures k in ks {
      var x :| x in sel && key2(x) == k;
    }
    GroupsReconcile(ks, sel, key2, w);
  }

  lemma KeysOfSnoc<T, K>(xs: seq<T>, x: T, key: T -> K)
    ensures KeysOf(xs + [x], key) == KeysOf(xs, key) + {key(x)}
  {
    assert forall y :: y in xs + [x] <==> y in xs || y == x;
  }

  /** `acc` is what a group-by of `xs` holds: one entry per key some record
      carries, and under each key the sum of the weights of its records. */
  ghost predicate Accumulates<T, K>(acc: map<K, int>, xs: seq<T>, key: T -> K, w: T -> int)
  {
    && acc.Keys == KeysOf(xs, key)
    && forall k :: k in acc ==> acc[k] == KeySum(xs, key, w, k)
  }

  /** `acc` is what a two-level group-by of `xs` holds: one row per outer key
      some record carries, each row the group-by of that key's records. */
  ghost predicate NestedAccumulates<T, K1, K2>(acc: map<K1, map<K2, int>>, xs: seq<T>, key1: T -> K1, key2: T -> K2, w: T -> int)
  {
    && acc.Keys == KeysOf(xs, key1)
    && forall a :: a in acc ==> Accumulates(acc[a], Select(xs, key1, a), key2, w)
  }

  /** `acc[k] = (acc[k] || 0) + v`. */
  function AddTo<K>(acc: map<K, int>, k: K, v: int): map<K, int>
  {
    acc[k := (if k in acc then acc[k] else 0) + v]
  }

  lemma GroupStep<T, K>(acc: map<K, int>, xs: seq<T>, x: T, key: T -> K, w: T -> int)
    requires Accumulates(acc, xs, key, w)
    ensures Accumulates(AddTo(acc, key(x), w(x)), xs + [x], key, w)
  {
    KeysOfSnoc(xs, x, key);
    if key(x) !in acc {
      AbsentKeySumsToZero(xs, key, w, key(x));
    }
    var acc' := AddTo(acc, key(x), w(x));
    forall k | k in acc' ensures acc'[k] == KeySum(xs + [x], key, w, k) {
      KeySumSnoc(xs, x, key, w, k);
    }
  }

  lemma NestedGroupStep<T, K1, K2>(acc: map<K1, map<K2, int>>, xs: seq<T>, x: T, key1: T -> K1, key2: T -> K2, w: T -> int)
    requires NestedAccumulates(acc, xs, key1, key2, w)
    ensures var a := key1(x);
      NestedAccumulates(acc[a := AddTo(if a in acc then acc[a] else map[], key2(x), w(x))], xs + [x], key1, key2, w)
  {
    var a := key1(x);
    var row := if a in acc then acc[a] else map[];
    OwnRowStep(acc, xs, x, key1, key2, w);
    KeysOfSnoc(xs, x, key1);
    var acc' := acc[a := AddTo(row, key2(x), w(x))];
    assert acc'.Keys == KeysOf(xs + [x], key1);
    forall a' | a' in acc' ensures Accumulates(acc'[a'], Select(xs + [x], key1, a'), key2, w) {
      if a' != a {
        OtherRowKept(acc, xs, x, key1, key2, w, a');
      }
    }
  }

  /** A record adds its weight to its own row, started empty if new. */
  lemma OwnRowStep<T, K1, K2>(acc: map<K1, map<K2, int>>, xs: seq<T>, x: T, key1: T -> K1, key2: T -> K2, w: T -> int)
    requires NestedAccumulates(acc, xs, key1, key2, w)
    ensures var a := key1(x);
      Accumulates(AddTo(if a in acc then acc[a] else map[], key2(x), w(x)), Select(xs + [x], key1, a), key2, w)
  {
    var a := key1(x);
    var row := if a in acc then acc[a] else map[];
    if a !in acc {
      AbsentKeySumsToZero(xs, key1, w, a);
    }
    SelectSnoc(xs, x, key1, a);
    GroupStep(row, Select(xs, key1, a), x, key2, w);
  }

  /** A record leaves the rows of the other outer keys as they were. */
  lemma OtherRowKept<T, K1, K2>(acc: map<K1, map<K2, int>>, xs: seq<T>, x: T, key1: T -> K1, key2: T -> K2, w: T -> int, b: K1)
    requires NestedAccumulates(acc, xs, key1, key2, w)
    requires b in acc && b != key1(x)
    ensures Accumulates(acc[b], Select(xs + [x], key1, b), key2, w)
  {
    SelectSnoc(xs, x, key1, b);
  }

  /** `xs.reduce((acc, x) => { acc[key(x)] = (acc[key(x)] || 0) + w(x); return acc }, {})`. */
  method GroupSums<T, K(==)>(xs: seq<T>, key: T -> K, w: T -> int) returns (acc: map<K, int>)
    ensures Accumulates(acc, xs, key, w)
  {
    acc := map[];
    var i := 0;
    while i < |xs|
      invariant 0 <= i <= |xs|
      invariant Accumulates(acc, xs[..i], key, w)
    {
      assert xs[..i + 1] == xs[..i] + [xs[i]];
      GroupStep(acc, xs[..i], xs[i], key, w);
      acc := AddTo(acc, key(xs[i]), w(xs[i]));
      i := i + 1;
    }
    assert xs[..i] == xs;
  }

  /** `xs.reduce((acc, x) => { acc[a] = acc[a] || {}; acc[a][b] = (acc[a][b] || 0) + w(x); return acc }, {})`
      with `a = key1(x)`, `b = key2(x)`: rows are not zero-filled, an inner
      key appears in a row only if some record of that row carries it. */
  method NestedGroupSums<T, K1(==), K2(==)>(xs: seq<T>, key1: T -> K1, key2: T -> K2, w: T -> int)
    returns (acc: map<K1, map<K2, int>>)
    ensures NestedAccumulates(acc, xs, key1, key2, w)
  {
    acc := map[];
    var i := 0;
    while i < |xs|
      invariant 0 <= i <= |xs|
      invariant NestedAccumulates(acc, xs[..i], key1, key2, w)
    {
      var x := xs[i];
      assert xs[..i + 1] == xs[..i] + [x];
      NestedGroupStep(acc, xs[..i], x, key1, key2, w);
      var row := if key1(x) in acc then acc[key1(x)] else map[];
      acc := acc[key1(x) := AddTo(row, key2(x), w(x))];
      i := i + 1;
    }
    assert xs[..i] == xs;
  }
  /** Sum of a dictionary's values along a list of keys, 0 for a key it lacks. */
  function SumAlong<K>(ks: seq<K>, m: map<K, int>): int
  {
    if ks == [] then 0 else (if ks[0] in m then m[ks[0]] else 0) + SumAlong(ks[1..], m)
  }

  /** A dictionary that holds the group sum under each of its keys, and
      holds every key some record carries, adds up along any key list as
      the group sums do. */
  lemma {:induction false} SumAlongMatchesSumKeys<T, K>(ks: seq<K>, m: map<K, int>, xs: seq<T>, key: T -> K, w: T -> int)
    requires KeysOf(xs, key) <= m.Keys
    requires forall k :: k in m ==> m[k] == KeySum(xs, key, w, k)
    ensures SumAlong(ks, m) == SumKeys(ks, xs, key, w)
  {
    if ks != [] {
      SumAlongMatchesSumKeys(ks[1..], m, xs, key, w);
      if ks[0] !in m {
        AbsentKeySumsToZero(xs, key, w, ks[0]);
      }
    }
  }

  /** The values of a group-by, read along a list of distinct keys that
      covers its keys, add up to the total weight of the records. */
  lemma AccumulatedValuesAddUp<T, K>(ks: seq<K>, m: map<K, int>, xs: seq<T>, key: T -> K, w: T -> int)
    requires Accumulates(m, xs, key, w)
    requires Distinct(ks) && m.Keys <= set k | k in ks
    ensures SumAlong(ks, m) == Sum(xs, w)
  {
    SumAlongMatchesSumKeys(ks, m, xs, key, w);
    GroupsReconcile(ks, xs, key, w);
  }
  /** The keys in the order a JavaScript object first received them: each
      key once, at the position of the first record that carries it. */
  function FirstSeen<T, K(==)>(xs: seq<T>, key: T -> K): (r: seq<K>)
    ensures Distinct(r)
    ensures (set k | k in r) == KeysOf(xs, key)
    ensures |r| <= |xs|
  {
    if xs == [] then []
    else
      var init, last := xs[..|xs| - 1], xs[|xs| - 1];
      var seen := FirstSeen(init, key);
      KeysOfSnoc(init, last, key);
      assert init + [last] == xs;
      if key(last) in seen then seen else seen + [key(last)]
  }

  /** The first key seen is the key of the first record. */
  lemma {:induction false} FirstSeenStartsWithFirst<T, K>(xs: seq<T>, key: T -> K)
    requires xs != []
    ensures FirstSeen(xs, key) != [] && FirstSeen(xs, key)[0] == key(xs[0])
  {
    if |xs| > 1 {
      FirstSeenStartsWithFirst(xs[..|xs| - 1], key);
    }
  }

  lemma {:induction false} DistinctCountsOnce<K>(a: seq<K>, x: K)
    requires Distinct(a)
    ensures multiset(a)[x] <= 1
  {
    if a != [] {
      var init, last := a[..|a| - 1], a[|a| - 1];
      assert a == init + [last];
      DistinctCountsOnce(init, x);
      assert last == x ==> x !in init;
    }
  }

  /** A rearrangement of a list without repetitions has none either. */
  lemma DistinctPermutation<K>(a: seq<K>, b: seq<K>)
    requires Distinct(a) && multiset(a) == multiset(b)
    ensures Distinct(b)
  {
    forall i, j | 0 <= i < j < |b|
      ensures b[i] != b[j]
    {
      if b[i] == b[j] {
        assert b == b[..j] + b[j..];
        assert b[i] in multiset(b[..j]);
        assert b[j] in multiset(b[j..]);
        assert multiset(b)[b[i]] >= 2;
        DistinctCountsOnce(a, b[i]);
      }
    }
  }
}
