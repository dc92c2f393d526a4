/** Client-side pagination of the admin tables: the rows of page `p` are
    `list.slice((p - 1) * perPage, p * perPage)`, and the page count is
    `Math.ceil(list.length / perPage)`, clamped to at least 1 on some pages
    and not on others. */
module Paging {

  function Min(a: int, b: int): int { if a <= b then a else b }

  /** `Math.ceil(n / d)` for a count `n` and a positive page size `d`. */
  function CeilDiv(n: nat, d: nat): (r: nat)
    requires d >= 1
    ensures r * d >= n
    ensures n > 0 ==> (r - 1) * d < n
    ensures n == 0 ==> r == 0
  {
    var q := (n + d - 1) / d;
    assert q * d <= n + d - 1 < (q + 1) * d;
    q
  }

  /** `Math.ceil(n / d) > 1 ? Math.ceil(n / d) : 1`: never fewer than one page. */
  function ClampedPageCount(n: nat, d: nat): (r: nat)
    requires d >= 1
    ensures r >= 1
    ensures r * d >= n
    ensures r > 1 ==> (r - 1) * d < n
  {
    if CeilDiv(n, d) > 1 then CeilDiv(n, d) else 1
  }

  /** Where page `page` starts: `(page - 1) * perPage`. */
  function PageStart(page: int, perPage: int): (r: nat)
    requires page >= 1 && perPage >= 1
    ensures r == (page - 1) * perPage
  {
    MulMonotone(0, page - 1, perPage);
    (page - 1) * perPage
  }

  /** `xs.slice((page - 1) * perPage, page * perPage)`: JavaScript's slice
      clamps both ends to the length. */
  function PageSlice<T>(xs: seq<T>, page: int, perPage: int): (r: seq<T>)
    requires page >= 1 && perPage >= 1
    ensures |r| <= perPage
    ensures |r| == if PageStart(page, perPage) >= |xs| then 0 else Min(perPage, |xs| - PageStart(page, perPage))
    ensures forall i :: 0 <= i < |r| ==> r[i] == xs[PageStart(page, perPage) + i]
  {
    var start := PageStart(page, perPage);
    xs[Min(start, |xs|)..Min(start + perPage, |xs|)]
  }

  /** Every row sits on exactly the page its position says, and that page
      is within the page count. */
  lemma ItemOnItsPage<T>(xs: seq<T>, perPage: int, k: int)
    requires perPage >= 1 && 0 <= k < |xs|
    ensures var page := k / perPage + 1;
      && page <= CeilDiv(|xs|, perPage)
      && k % perPage < |PageSlice(xs, page, perPage)|
      && PageSlice(xs, page, perPage)[k % perPage] == xs[k]
  {
    PageOfIndex(|xs|, perPage, k);
    var s := PageSlice(xs, k / perPage + 1, perPage);
    assert s[k % perPage] == xs[(k / perPage) * perPage + k % perPage];
  }

  /** The arithmetic of `ItemOnItsPage`: position k lies on page
      k / d + 1, which starts at or before k. */
  lemma PageOfIndex(n: nat, d: int, k: int)
    requires d >= 1 && 0 <= k < n
    ensures 0 <= (k / d) * d <= k < n
    ensures (k / d) * d + k % d == k
    ensures k / d + 1 <= CeilDiv(n, d)
  {
    var q, r := k / d, k % d;
    assert q * d + r == k && 0 <= r < d;
    MulMonotone(0, q, d);
    var c := CeilDiv(n, d);
    if c <= q {
      MulMonotone(c, q, d);
    }
  }

  lemma MulMonotone(a: int, b: int, d: nat)
    requires a <= b
    ensures a * d <= b * d
  {
    assert b * d - a * d == (b - a) * d;
  }

  /** A page past the page count is empty. */
  lemma PastLastPageIsEmpty<T>(xs: seq<T>, perPage: int, page: int)
    requires perPage >= 1 && page > CeilDiv(|xs|, perPage)
    ensures PageSlice(xs, page, perPage) == []
  {
    assert (page - 1) * perPage >= CeilDiv(|xs|, perPage) * perPage;
  }

  /** Pages 1 to n, one after the other. */
  function PagesUpTo<T>(xs: seq<T>, n: nat, perPage: int): seq<T>
    requires perPage >= 1
  {
    if n == 0 then [] else PagesUpTo(xs, n - 1, perPage) + PageSlice(xs, n, perPage)
  }

  lemma {:induction false} PagesUpToIsPrefix<T>(xs: seq<T>, n: nat, perPage: int)
    requires perPage >= 1
    ensures PagesUpTo(xs, n, perPage) == xs[..Min(n * perPage, |xs|)]
  {
    if n > 0 {
      PagesUpToIsPrefix(xs, n - 1, perPage);
      assert (n - 1) * perPage + perPage == n * perPage;
      var a, b := Min((n - 1) * perPage, |xs|), Min(n * perPage, |xs|);
      assert xs[..a] + xs[a..b] == xs[..b];
    }
  }

  /** Reading the pages one to the page count in turn shows every row once,
      in order. */
  lemma PagesRebuildList<T>(xs: seq<T>, perPage: int)
    requires perPage >= 1
    ensures PagesUpTo(xs, CeilDiv(|xs|, perPage), perPage) == xs
  {
    PagesUpToIsPrefix(xs, CeilDiv(|xs|, perPage), perPage);
    assert xs[..|xs|] == xs;
  }
}
