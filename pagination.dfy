/** Client-side paging and the row of page buttons used by the backoffice
    pages: `Math.ceil(len / PAGE_SIZE)` pages, `slice(page * PAGE_SIZE,
    page * PAGE_SIZE + PAGE_SIZE)` per page, and one button per page whose
    active flag marks the current one. */
module Pagination {

  const PageSize: nat := 20

  function Min(a: int, b: int): int {
    if a <= b then a else b
  }

  /** `Math.ceil(n / PAGE_SIZE)`: the fewest pages of at most PageSize that hold n items. */
  function TotalPages(n: nat): (t: nat)
    ensures t * PageSize >= n
    ensures t > 0 ==> (t - 1) * PageSize < n
  {
    (n + PageSize - 1) / PageSize
  }

  /** `xs.slice(page * PAGE_SIZE, page * PAGE_SIZE + PAGE_SIZE)`: JavaScript
      clamps both ends to the length. */
  function PageItems<T>(xs: seq<T>, page: nat): (r: seq<T>)
    ensures |r| <= PageSize
    ensures page < TotalPages(|xs|) ==> 0 < |r| && r == xs[page * PageSize .. Min(page * PageSize + PageSize, |xs|)]
    ensures page >= TotalPages(|xs|) ==> r == []
  {
    var start := page * PageSize;
    if start >= |xs| then [] else xs[start .. Min(start + PageSize, |xs|)]
  }

  /** The pages `p`, `p + 1`, …, `t - 1` one after the other. */
  function PagesFrom<T>(xs: seq<T>, p: nat, t: nat): seq<T>
    decreases t - p
  {
    if p >= t then [] else PageItems(xs, p) + PagesFrom(xs, p + 1, t)
  }

  /** Page `p` starts inside the list exactly when it is one of the pages. */
  lemma PageStart(n: nat, p: nat)
    ensures p < TotalPages(n) <==> p * PageSize < n
    ensures (p + 1) * PageSize == p * PageSize + PageSize
  {
    var t := TotalPages(n);
    if p < t {
      assert p * PageSize <= (t - 1) * PageSize;
    } else {
      assert p * PageSize >= t * PageSize;
    }
  }

  lemma {:induction false} PagesFromSuffix<T>(xs: seq<T>, p: nat)
    ensures PagesFrom(xs, p, TotalPages(|xs|)) == xs[Min(p * PageSize, |xs|)..]
    decreases TotalPages(|xs|) - p
  {
    var t := TotalPages(|xs|);
    var a := p * PageSize;
    PageStart(|xs|, p);
    if p < t {
      PagesFromSuffix(xs, p + 1);
      var b := Min(a + PageSize, |xs|);
      assert PagesFrom(xs, p + 1, t) == xs[b..];
      assert PagesFrom(xs, p, t) == xs[a..b] + xs[b..];
      assert xs[a..b] + xs[b..] == xs[a..];
    }
  }

  /** Concatenating every page, first to last, gives back the whole list:
      paging loses, repeats and reorders nothing. */
  lemma PagesPartition<T>(xs: seq<T>)
    ensures PagesFrom(xs, 0, TotalPages(|xs|)) == xs
  {
    PagesFromSuffix(xs, 0);
  }

  /** One `<Pagination.Item>`: the page it selects, the number shown and
      whether it is highlighted. */
  datatype PageLink = PageLink(target: int, shown: int, active: bool)

  /** The loop `for (let i = 0; i < totalPages; i++) paginationItems.push(…)`:
      one link per page, in order, only the current page active. */
  method PaginationItems(totalPages: int, page: int) returns (items: seq<PageLink>)
    ensures |items| == if totalPages > 0 then totalPages else 0
    ensures forall i :: 0 <= i < |items| ==> items[i] == PageLink(i, i + 1, i == page)
    ensures forall i :: 0 <= i < |items| ==> (items[i].active <==> i == page)
  {
    items := [];
    var i := 0;
    while i < totalPages
      invariant 0 <= i
      invariant i <= (if totalPages > 0 then totalPages else 0)
      invariant |items| == i
      invariant forall j :: 0 <= j < i ==> items[j] == PageLink(j, j + 1, j == page)
    {
      items := items + [PageLink(i, i + 1, i == page)];
      i := i + 1;
    }
  }

  /** Exactly one link is active when the current page is one of the pages,
      none otherwise. */
  lemma ActiveLinkCount(items: seq<PageLink>, totalPages: int, page: int)
    requires |items| == if totalPages > 0 then totalPages else 0
    requires forall i :: 0 <= i < |items| ==> items[i] == PageLink(i, i + 1, i == page)
    ensures (exists i :: 0 <= i < |items| && items[i].active) <==> 0 <= page < totalPages
    ensures forall i, j :: 0 <= i < |items| && 0 <= j < |items| && items[i].active && items[j].active ==> i == j
  {
    if 0 <= page < totalPages {
      assert items[page].active;
    }
  }
}
