/** Fixed-page-size pagination shared by the farmer and buyer portals:
    `Math.ceil(n / perPage)` pages, page `p` is `slice((p - 1) * perPage,
    p * perPage)`, and the Prev/Next buttons clamp the page number. */
module Pagination {

  import opened JsArrays

  /** `Math.ceil(n / perPage)`: the fewest pages of `perPage` items holding `n`. */
  function TotalPages(n: nat, perPage: nat): (r: nat)
    requires perPage > 0
    ensures r * perPage >= n
    ensures r > 0 ==> (r - 1) * perPage < n
    ensures r == 0 <==> n == 0
  {
    (n + perPage - 1) / perPage
  }

  /** The items shown on page `page`. */
  function PageItems<T>(xs: seq<T>, page: int, perPage: nat): (r: seq<T>)
    ensures |r| <= perPage
    ensures page >= 1 && page * perPage <= |xs| ==> |r| == perPage
  {
    var start := (page - 1) * perPage;
    PageStart(page, perPage);
    Slice(xs, start, start + perPage)
  }

  lemma PageStart(page: int, perPage: nat)
    ensures page * perPage == (page - 1) * perPage + perPage
    ensures page >= 1 ==> (page - 1) * perPage >= 0
  {
    if page >= 1 {
      MulMonotone(0, page - 1, perPage);
    }
  }

  /** Pages 1 through `k`, concatenated. */
  function PagesThrough<T>(xs: seq<T>, k: nat, perPage: nat): seq<T> {
    if k == 0 then [] else PagesThrough(xs, k - 1, perPage) + PageItems(xs, k, perPage)
  }

  /** Pages 1 through `k` are exactly the first `k * perPage` items. */
  lemma {:induction false} PagesThroughIsPrefix<T>(xs: seq<T>, k: nat, perPage: nat)
    ensures PagesThrough(xs, k, perPage) == xs[..if k * perPage <= |xs| then k * perPage else |xs|]
  {
    if k > 0 {
      PagesThroughIsPrefix(xs, k - 1, perPage);
      var start := (k - 1) * perPage;
      MulSucc(k, perPage);
      PageItemsRange(xs, k, perPage, start);
      var a := if start <= |xs| then start else |xs|;
      var b := if start + perPage <= |xs| then start + perPage else |xs|;
      PrefixSplit(xs, a, b);
    }
  }

  lemma PrefixSplit<T>(xs: seq<T>, a: nat, b: nat)
    requires a <= b <= |xs|
    ensures xs[..b] == xs[..a] + xs[a..b]
  {
  }

  lemma MulSucc(k: nat, perPage: nat)
    requires k > 0
    ensures (k - 1) * perPage >= 0
    ensures k * perPage == (k - 1) * perPage + perPage
  {
  }

  /** Page `page` is the slice of the list from `start` to `start + perPage`,
      both cut at the list's end. */
  lemma PageItemsRange<T>(xs: seq<T>, page: int, perPage: nat, start: nat)
    requires start == (page - 1) * perPage
    ensures PageItems(xs, page, perPage) ==
              xs[(if start <= |xs| then start else |xs|)..(if start + perPage <= |xs| then start + perPage else |xs|)]
  {
  }

  /** Concatenating pages 1..TotalPages gives back the whole list: no item is
      lost or repeated. */
  lemma PagesCoverList<T>(xs: seq<T>, perPage: nat)
    requires perPage > 0
    ensures PagesThrough(xs, TotalPages(|xs|, perPage), perPage) == xs
  {
    PagesThroughIsPrefix(xs, TotalPages(|xs|, perPage), perPage);
  }

  lemma MulMonotone(a: int, b: int, c: nat)
    requires a <= b
    ensures a * c <= b * c
  {
  }

  lemma DivisionBounds(i: nat, perPage: nat)
    requires perPage > 0
    ensures (i / perPage) * perPage <= i < (i / perPage) * perPage + perPage
    ensures i - (i / perPage) * perPage == i % perPage
  {
  }

  /** Position `k` of page `page` is item `(page - 1) * perPage + k`. */
  lemma PageItemsAt<T>(xs: seq<T>, page: int, perPage: nat, start: nat, k: nat)
    requires start == (page - 1) * perPage && k < perPage && start + k < |xs|
    ensures k < |PageItems(xs, page, perPage)|
    ensures PageItems(xs, page, perPage)[k] == xs[start + k]
  {
    var e := if start + perPage <= |xs| then start + perPage else |xs|;
    assert PageItems(xs, page, perPage) == xs[start..e];
  }

  /** Item `i` is shown at position `i % perPage` of page `i / perPage + 1`. */
  lemma ItemOnPage<T>(xs: seq<T>, i: nat, perPage: nat)
    requires perPage > 0 && i < |xs|
    ensures 1 <= i / perPage + 1 <= TotalPages(|xs|, perPage)
    ensures i % perPage < |PageItems(xs, i / perPage + 1, perPage)|
    ensures PageItems(xs, i / perPage + 1, perPage)[i % perPage] == xs[i]
  {
    PageOfItem(i, perPage, |xs|);
    PageItemsAt(xs, i / perPage + 1, perPage, (i / perPage) * perPage, i % perPage);
  }

  /** The arithmetic behind `ItemOnPage`. */
  lemma PageOfItem(i: nat, perPage: nat, n: nat)
    requires perPage > 0 && i < n
    ensures 1 <= i / perPage + 1 <= TotalPages(n, perPage)
    ensures (i / perPage + 1 - 1) * perPage == (i / perPage) * perPage
    ensures (i / perPage) * perPage + i % perPage == i && i % perPage < perPage
  {
    var q := i / perPage;
    DivisionBounds(i, perPage);
    var t := TotalPages(n, perPage);
    if t <= q {
      MulMonotone(t, q, perPage);
      assert false;
    }
  }

  /** The Prev button: `Math.max(1, p - 1)`. */
  function PrevPage(p: int): (r: int)
    ensures r >= 1
    ensures p >= 2 ==> r == p - 1
  {
    if p - 1 > 1 then p - 1 else 1
  }

  /** The Next button: `Math.min(totalPages, p + 1)`. */
  function NextPage(p: int, totalPages: int): (r: int)
    ensures r <= totalPages
    ensures p < totalPages ==> r == p + 1
    ensures p >= totalPages ==> r == totalPages
  {
    if totalPages < p + 1 then totalPages else p + 1
  }

  /** Starting inside 1..totalPages, Prev and Next keep the page there, and at
      the ends they leave it where it is. */
  lemma NavigationStaysInRange(p: int, totalPages: int)
    requires 1 <= p <= totalPages
    ensures 1 <= PrevPage(p) <= totalPages && 1 <= NextPage(p, totalPages) <= totalPages
    ensures p == 1 ==> PrevPage(p) == 1
    ensures p == totalPages ==> NextPage(p, totalPages) == totalPages
  {
  }
}
