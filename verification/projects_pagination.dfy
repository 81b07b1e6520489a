/**
 * The pagination bar under a list: the number of pages, the "start–end de
 * total" range, the previous/next targets, and the window of page buttons
 * with ellipsis markers that `getPages` builds by pushing onto an array.
 */
module ProjectsPagination {
  import Lists

  /** One entry of the button row: a page number or the "..." marker. */
  datatype PageItem = PageNum(n: int) | Dots

  /**
   * `Math.ceil(total / pageSize)`. Callers pass a non-negative total and a
   * page size chosen from a list of positive sizes.
   */
  function TotalPages(total: int, pageSize: int): (r: nat)
    requires total >= 0 && pageSize >= 1
    ensures r * pageSize >= total
    ensures total > 0 ==> (r - 1) * pageSize < total
    ensures r == 0 <==> total == 0
  {
    var r := (total + pageSize - 1) / pageSize;
    assert r * pageSize + (total + pageSize - 1) % pageSize == total + pageSize - 1;
    r
  }

  /** The bar renders nothing unless there is more than one page. */
  predicate ShowsControls(total: int, pageSize: int)
    requires total >= 0 && pageSize >= 1
  {
    TotalPages(total, pageSize) > 1
  }

  /** Multiplying by a non-negative factor keeps the order. */
  lemma MulMono(a: int, b: int, c: int)
    requires a <= b && c >= 0
    ensures a * c <= b * c
  {
    assert b * c - a * c == (b - a) * c;
  }

  /** A strict inequality between multiples of a positive factor holds between the multiplicands. */
  lemma MulCancel(a: int, b: int, c: int)
    requires c > 0 && a * c < b * c
    ensures a < b
  {
    assert (b - a) * c == b * c - a * c;
  }

  /** The bar is shown exactly when the items do not fit on one page. */
  lemma ShowsControlsIff(total: int, pageSize: int)
    requires total >= 0 && pageSize >= 1
    ensures ShowsControls(total, pageSize) <==> total > pageSize
  {
    var r := TotalPages(total, pageSize);
    if total > pageSize {
      MulCancel(1, r, pageSize);
    } else if total > 0 {
      MulCancel(r - 1, 1, pageSize);
    }
  }

  /** First item number shown on `page` (counted from 1). */
  function RangeStart(page: int, pageSize: int): int
  {
    (page - 1) * pageSize + 1
  }

  /** Last item number shown on `page`. */
  function RangeEnd(page: int, pageSize: int, total: int): (r: int)
    ensures r <= total && r <= page * pageSize
    ensures r == total || r == page * pageSize
  {
    if page * pageSize < total then page * pageSize else total
  }

  /**
   * For a page in range, the caption's range is non-empty, lies inside
   * 1..total, and counts exactly the items of that page's slice.
   */
  lemma RangeMatchesPage<T>(items: seq<T>, page: int, pageSize: int)
    requires pageSize >= 1 && 1 <= page <= TotalPages(|items|, pageSize)
    ensures var start, end := RangeStart(page, pageSize), RangeEnd(page, pageSize, |items|);
      && 1 <= start <= end <= |items|
      && end - start + 1 == |Lists.Slice(items, (page - 1) * pageSize, page * pageSize)|
  {
    var total := |items|;
    var n := TotalPages(total, pageSize);
    MulMono(page - 1, n - 1, pageSize);
    Lists.PageBounds(page, pageSize);
    Lists.PageSlice(items, page, pageSize);
  }

  /** Target of the "previous" button. */
  function PrevTarget(page: int): (r: int)
    ensures r >= 1
    ensures page > 1 ==> r == page - 1
    ensures page == 1 ==> r == page
  {
    if page - 1 > 1 then page - 1 else 1
  }

  /** Target of the "next" button. */
  function NextTarget(page: int, totalPages: int): (r: int)
    ensures r <= totalPages
    ensures page < totalPages ==> r == page + 1
    ensures page == totalPages ==> r == page
  {
    if page + 1 < totalPages then page + 1 else totalPages
  }

  /** Inside 1..totalPages both buttons stay in range, and next undoes previous. */
  lemma PrevNextInRange(page: int, totalPages: int)
    requires 1 <= page <= totalPages
    ensures 1 <= PrevTarget(page) <= totalPages && 1 <= NextTarget(page, totalPages) <= totalPages
    ensures page > 1 ==> NextTarget(PrevTarget(page), totalPages) == page
    ensures page < totalPages ==> PrevTarget(NextTarget(page, totalPages)) == page
  {
  }

  /** The buttons for pages `lo`, `lo + 1`, …, `hi - 1`. */
  function Run(lo: int, hi: int): (r: seq<PageItem>)
    ensures |r| == if hi <= lo then 0 else hi - lo
    ensures forall k :: 0 <= k < |r| ==> r[k] == PageNum(lo + k)
    decreases hi - lo
  {
    if hi <= lo then [] else [PageNum(lo)] + Run(lo + 1, hi)
  }

  /** Extending a run by one page on the right. */
  lemma RunSnoc(lo: int, hi: int)
    requires lo <= hi
    ensures Run(lo, hi + 1) == Run(lo, hi) + [PageNum(hi)]
  {
    assert Run(lo, hi + 1)[hi - lo] == PageNum(hi);
  }

  /**
   * The row starts at page 1 and ends at the last page, every number is a
   * page, two neighbouring numbers are consecutive pages, and a marker
   * sits exactly between two numbers that skip at least one page.
   */
  ghost predicate WellFormed(pages: seq<PageItem>, totalPages: int)
  {
    && |pages| >= 2
    && pages[0] == PageNum(1)
    && pages[|pages| - 1] == PageNum(totalPages)
    && (forall k :: 0 <= k < |pages| && pages[k].PageNum? ==> 1 <= pages[k].n <= totalPages)
    && (forall k :: 0 <= k < |pages| - 1 && pages[k].PageNum? && pages[k + 1].PageNum? ==>
          pages[k + 1].n == pages[k].n + 1)
    && (forall k :: 0 <= k < |pages| && pages[k].Dots? ==>
          && 0 < k < |pages| - 1
          && pages[k - 1].PageNum? && pages[k + 1].PageNum?
          && pages[k - 1].n + 1 < pages[k + 1].n)
  }

  /** In a well-formed row the page numbers strictly increase from left to right. */
  lemma {:induction false} WellFormedIncreasing(pages: seq<PageItem>, totalPages: int, i: int, j: int)
    requires WellFormed(pages, totalPages)
    requires 0 <= i < j < |pages| && pages[i].PageNum? && pages[j].PageNum?
    ensures pages[i].n < pages[j].n
    decreases j - i
  {
    if pages[i + 1].PageNum? {
      if i + 1 < j {
        WellFormedIncreasing(pages, totalPages, i + 1, j);
      }
    } else {
      if i + 2 < j {
        WellFormedIncreasing(pages, totalPages, i + 2, j);
      }
    }
  }

  /** The current page and its neighbours that exist all have a button. */
  predicate ShowsNeighbours(pages: seq<PageItem>, page: int, totalPages: int)
  {
    forall p :: 1 <= p <= totalPages && page - 1 <= p <= page + 1 ==> PageNum(p) in pages
  }

  /** Up to seven pages: one button per page. */
  lemma FullRow(page: int, totalPages: int)
    requires 2 <= totalPages <= 7
    ensures var pages := Run(1, totalPages + 1);
      WellFormed(pages, totalPages) && ShowsNeighbours(pages, page, totalPages)
  {
    var pages := Run(1, totalPages + 1);
    forall p | 1 <= p <= totalPages && page - 1 <= p <= page + 1
      ensures PageNum(p) in pages
    {
      assert pages[p - 1] == PageNum(p);
    }
  }

  /** A current page outside 1..totalPages: first, marker, last. */
  lemma OutsideRow(page: int, totalPages: int)
    requires totalPages > 7 && (page <= 0 || page > totalPages)
    ensures var pages := [PageNum(1), Dots, PageNum(totalPages)];
      WellFormed(pages, totalPages) && ShowsNeighbours(pages, page, totalPages)
  {
    var pages := [PageNum(1), Dots, PageNum(totalPages)];
    forall p | 1 <= p <= totalPages && page - 1 <= p <= page + 1
      ensures PageNum(p) in pages
    {
      assert p == 1 || p == totalPages;
    }
  }

  /** Pages 1 to 3: the run from page 2, then a marker before the last page. */
  lemma LowRow(page: int, totalPages: int)
    requires 1 <= page <= 3 && totalPages > 7
    ensures var pages := [PageNum(1)] + Run(2, page + 2) + [Dots, PageNum(totalPages)];
      WellFormed(pages, totalPages) && |pages| <= 7 && ShowsNeighbours(pages, page, totalPages)
  {
    LowRowShape(page, totalPages);
    LowRowShows(page, totalPages);
  }

  lemma LowRowShape(page: int, totalPages: int)
    requires 1 <= page <= 3 && totalPages > 7
    ensures var pages := [PageNum(1)] + Run(2, page + 2) + [Dots, PageNum(totalPages)];
      WellFormed(pages, totalPages) && |pages| <= 7
  {
    var pages := [PageNum(1)] + Run(2, page + 2) + [Dots, PageNum(totalPages)];
    assert forall k :: 1 <= k <= page ==> pages[k] == PageNum(k + 1);
    assert pages[page + 1] == Dots;
  }

  lemma LowRowShows(page: int, totalPages: int)
    requires 1 <= page <= 3 && totalPages > 7
    ensures ShowsNeighbours([PageNum(1)] + Run(2, page + 2) + [Dots, PageNum(totalPages)], page, totalPages)
  {
    var pages := [PageNum(1)] + Run(2, page + 2) + [Dots, PageNum(totalPages)];
    forall p | 1 <= p <= totalPages && page - 1 <= p <= page + 1
      ensures PageNum(p) in pages
    {
      assert pages[p - 1] == PageNum(p);
    }
  }

  /** The last three pages: a marker after page 1, then the run up to the last page. */
  lemma HighRow(page: int, totalPages: int)
    requires totalPages - 2 <= page <= totalPages && totalPages > 7
    ensures var pages := [PageNum(1), Dots] + Run(page - 1, totalPages) + [PageNum(totalPages)];
      WellFormed(pages, totalPages) && |pages| <= 7 && ShowsNeighbours(pages, page, totalPages)
  {
    HighRowShape(page, totalPages);
    HighRowShows(page, totalPages);
  }

  lemma HighRowShape(page: int, totalPages: int)
    requires totalPages - 2 <= page <= totalPages && totalPages > 7
    ensures var pages := [PageNum(1), Dots] + Run(page - 1, totalPages) + [PageNum(totalPages)];
      WellFormed(pages, totalPages) && |pages| <= 7
  {
    var pages := [PageNum(1), Dots] + Run(page - 1, totalPages) + [PageNum(totalPages)];
    var m := totalPages - page + 1;
    assert forall k :: 2 <= k < 2 + m ==> pages[k] == PageNum(page - 1 + k - 2);
    assert pages[2 + m] == PageNum(totalPages);
  }

  lemma HighRowShows(page: int, totalPages: int)
    requires totalPages - 2 <= page <= totalPages && totalPages > 7
    ensures ShowsNeighbours([PageNum(1), Dots] + Run(page - 1, totalPages) + [PageNum(totalPages)], page, totalPages)
  {
    var pages := [PageNum(1), Dots] + Run(page - 1, totalPages) + [PageNum(totalPages)];
    var m := totalPages - page + 1;
    assert forall k :: 2 <= k < 2 + m ==> pages[k] == PageNum(page - 1 + k - 2);
    assert pages[2 + m] == PageNum(totalPages);
    forall p | 1 <= p <= totalPages && page - 1 <= p <= page + 1
      ensures PageNum(p) in pages
    {
      assert pages[p - page + 3] == PageNum(p);
    }
  }

  /** Any other page: markers on both sides of the page and its two neighbours. */
  lemma MiddleRow(page: int, totalPages: int)
    requires 4 <= page <= totalPages - 3
    ensures var pages := [PageNum(1), Dots, PageNum(page - 1), PageNum(page), PageNum(page + 1), Dots, PageNum(totalPages)];
      WellFormed(pages, totalPages) && ShowsNeighbours(pages, page, totalPages)
  {
  }

  /**
   * The row `getPages` builds for more than seven pages: page 1, a marker
   * when the window starts after page 2, the pages from `page - 1` to
   * `page + 1` kept strictly between the first and the last page, a marker
   * when the window ends before the second-to-last page, and the last page.
   */
  function Window(page: int, totalPages: int): seq<PageItem>
  {
    var s := if page - 1 > 2 then page - 1 else 2;
    var e := if page + 1 < totalPages - 1 then page + 1 else totalPages - 1;
    [PageNum(1)] + (if page > 3 then [Dots] else []) + Run(s, e + 1)
      + ((if page < totalPages - 2 then [Dots] else []) + [PageNum(totalPages)])
  }

  /** The row for more than seven pages is well formed, short, and shows the current page's neighbours. */
  lemma WindowWellFormed(page: int, totalPages: int)
    requires totalPages > 7
    ensures var pages := Window(page, totalPages);
      WellFormed(pages, totalPages) && |pages| <= 7 && ShowsNeighbours(pages, page, totalPages)
  {
    var pages := Window(page, totalPages);
    var n := totalPages;
    if page <= 0 || page > n {
      assert Run(if page - 1 > 2 then page - 1 else 2, (if page + 1 < n - 1 then page + 1 else n - 1) + 1) == [];
      assert pages == [PageNum(1), Dots, PageNum(n)];
      OutsideRow(page, n);
    } else if page <= 3 {
      assert pages == [PageNum(1)] + Run(2, page + 2) + [Dots, PageNum(n)];
      LowRow(page, n);
    } else if page >= n - 2 {
      assert pages == [PageNum(1), Dots] + Run(page - 1, n) + [PageNum(n)];
      HighRow(page, n);
    } else {
      assert Run(page - 1, page + 2) == [PageNum(page - 1), PageNum(page), PageNum(page + 1)];
      assert pages == [PageNum(1), Dots, PageNum(page - 1), PageNum(page), PageNum(page + 1), Dots, PageNum(n)];
      MiddleRow(page, n);
    }
  }

  /**
   * `getPages`: with at most seven pages every page gets a button; with
   * more, the first and last page, the current page and its neighbours,
   * and a marker for each skipped stretch, in at most seven entries.
   */
  method GetPages(page: int, totalPages: int) returns (pages: seq<PageItem>)
    requires totalPages >= 2
    ensures totalPages <= 7 ==>
      |pages| == totalPages && forall k :: 0 <= k < |pages| ==> pages[k] == PageNum(k + 1)
    ensures |pages| <= 7
    ensures WellFormed(pages, totalPages)
    ensures ShowsNeighbours(pages, page, totalPages)
    ensures 1 <= page <= totalPages ==> PageNum(page) in pages
    ensures totalPages > 7 ==> pages == Window(page, totalPages)
  {
    if totalPages <= 7 {
      pages := AllPages(totalPages);
      FullRow(page, totalPages);
    } else {
      pages := WindowPages(page, totalPages);
    }
  }

  /** The first branch of `getPages`: one button for each page from 1 to `totalPages`. */
  method AllPages(totalPages: int) returns (pages: seq<PageItem>)
    requires totalPages >= 1
    ensures pages == Run(1, totalPages + 1)
  {
    pages := [];
    var i := 1;
    while i <= totalPages
      invariant 1 <= i <= totalPages + 1
      invariant pages == Run(1, i)
    {
      RunSnoc(1, i);
      pages := pages + [PageNum(i)];
      i := i + 1;
    }
  }

  /** The second branch of `getPages`: first page, window around `page` with its markers, last page. */
  method WindowPages(page: int, totalPages: int) returns (pages: seq<PageItem>)
    requires totalPages > 7
    ensures pages == Window(page, totalPages)
    ensures WellFormed(pages, totalPages) && |pages| <= 7 && ShowsNeighbours(pages, page, totalPages)
  {
    pages := [PageNum(1)];
    if page > 3 {
      pages := pages + [Dots];
    }
    var s := if page - 1 > 2 then page - 1 else 2;
    var e := if page + 1 < totalPages - 1 then page + 1 else totalPages - 1;
    ghost var head := pages;
    var i := s;
    while i <= e
      invariant s <= i && (i <= e + 1 || i == s)
      invariant pages == head + Run(s, i)
    {
      RunSnoc(s, i);
      pages := pages + [PageNum(i)];
      i := i + 1;
    }
    assert Run(s, i) == Run(s, e + 1);
    ghost var mid := pages;
    if page < totalPages - 2 {
      pages := pages + [Dots];
    }
    pages := pages + [PageNum(totalPages)];
    WindowSplit(page, totalPages, head, mid, pages);
    WindowWellFormed(page, totalPages);
  }

  /** Gluing the three pieces `WindowPages` pushes gives `Window`. */
  lemma WindowSplit(page: int, totalPages: int, head: seq<PageItem>, mid: seq<PageItem>, pages: seq<PageItem>)
    requires head == [PageNum(1)] + (if page > 3 then [Dots] else [])
    requires mid == head + Run(if page - 1 > 2 then page - 1 else 2,
                               (if page + 1 < totalPages - 1 then page + 1 else totalPages - 1) + 1)
    requires pages == mid + (if page < totalPages - 2 then [Dots] else []) + [PageNum(totalPages)]
    ensures pages == Window(page, totalPages)
  {
  }
}
