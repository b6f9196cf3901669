/** The page bar of the list pages (frontend_new/src/components/Pagination.jsx):
    a window of at most five page numbers around the current page, shortcuts
    to the first and the last page with ellipses for the pages in between,
    the previous/next buttons and the "shown a - b of n" caption. */
module Pagination {
  import opened Seqs

  /** `maxVisible`. */
  const MaxVisible: int := 5

  /** The `itemsPerPage` default. */
  const DefaultItemsPerPage: int := 10

  function Max(a: int, b: int): int { if a >= b then a else b }

  function Min(a: int, b: int): int { if a <= b then a else b }

  /** The window start before the adjustment:
      `Math.max(1, currentPage - Math.floor(maxVisible / 2))`. */
  function FirstStart(cur: int): int {
    Max(1, cur - MaxVisible / 2)
  }

  /** `endPage`. */
  function WindowEnd(cur: int, total: int): int {
    Min(total, FirstStart(cur) + MaxVisible - 1)
  }

  /** `startPage` after the adjustment that keeps the window full near the
      last page. */
  function WindowStart(cur: int, total: int): int {
    var e := WindowEnd(cur, total);
    if e - FirstStart(cur) < MaxVisible - 1 then Max(1, e - MaxVisible + 1) else FirstStart(cur)
  }

  /** The integers `a`, `a + 1`, ..., `b`, ascending. */
  function Span(a: int, b: int): (r: seq<int>)
    ensures |r| == if a <= b then b - a + 1 else 0
    ensures forall k :: 0 <= k < |r| ==> r[k] == a + k
  {
    if b < a then [] else seq(b - a + 1, k requires 0 <= k <= b - a => a + k)
  }

  /** What the component renders when there is more than one page. */
  datatype Bar = Bar(
    shownFrom: int, shownTo: int, totalItems: int,
    prevDisabled: bool,
    firstShortcut: bool, leftEllipsis: bool,
    pages: seq<int>,
    rightEllipsis: bool, lastShortcut: bool, lastPage: int,
    nextDisabled: bool)

  function PerPage(itemsPerPage: Option<int>): int {
    if itemsPerPage.Some? then itemsPerPage.value else DefaultItemsPerPage
  }

  /** The component's output; `None` is `return null`. */
  function Render(cur: int, total: int, itemsPerPage: Option<int>, totalItems: int): Option<Bar> {
    if total <= 1 then None
    else
      var ipp := PerPage(itemsPerPage);
      var s := WindowStart(cur, total);
      var e := WindowEnd(cur, total);
      Some(Bar((cur - 1) * ipp + 1, Min(cur * ipp, totalItems), totalItems,
               cur == 1,
               s > 1, s > 2,
               Span(s, e),
               e < total - 1, e < total, total,
               cur == total))
  }

  /** The page numbers with a button, left to right. */
  function Buttons(b: Bar): seq<int> {
    (if b.firstShortcut then [1] else []) + b.pages + (if b.lastShortcut then [b.lastPage] else [])
  }

  predicate StrictlyIncreasing(s: seq<int>) {
    forall i, j :: 0 <= i < j < |s| ==> s[i] < s[j]
  }

  /** `Pagination`: the window computation with its `for` loop, then the
      caption, the flags and the buttons. */
  method Paginate(currentPage: int, totalPages: int, itemsPerPage: Option<int>, totalItems: int)
    returns (r: Option<Bar>)
    ensures r.None? <==> totalPages <= 1
    ensures r == Render(currentPage, totalPages, itemsPerPage, totalItems)
  {
    if totalPages <= 1 {
      return None;
    }
    var pages: seq<int> := [];
    var startPage := Max(1, currentPage - MaxVisible / 2);
    var endPage := Min(totalPages, startPage + MaxVisible - 1);
    if endPage - startPage < MaxVisible - 1 {
      startPage := Max(1, endPage - MaxVisible + 1);
    }
    assert startPage == WindowStart(currentPage, totalPages);
    assert endPage == WindowEnd(currentPage, totalPages);
    for i := startPage to endPage + 1
      invariant pages == Span(startPage, i - 1)
    {
      pages := pages + [i];
    }
    var ipp := PerPage(itemsPerPage);
    r := Some(Bar((currentPage - 1) * ipp + 1, Min(currentPage * ipp, totalItems), totalItems,
                  currentPage == 1,
                  startPage > 1, startPage > 2,
                  pages,
                  endPage < totalPages - 1, endPage < totalPages, totalPages,
                  currentPage == totalPages));
  }

  /** The window lies inside the pages: 1 <= startPage <= endPage <= totalPages. */
  lemma WindowBounds(cur: int, total: int)
    requires total >= 1
    ensures 1 <= WindowStart(cur, total) <= WindowEnd(cur, total) <= total
  {
  }

  /** The window holds `min(5, totalPages)` pages, whatever `currentPage` is. */
  lemma WindowSize(cur: int, total: int)
    requires total >= 1
    ensures |Span(WindowStart(cur, total), WindowEnd(cur, total))| == Min(MaxVisible, total)
  {
    WindowBounds(cur, total);
  }

  /** A current page that exists is in the window. */
  lemma CurrentPageShown(cur: int, total: int)
    requires 1 <= cur <= total
    ensures cur in Span(WindowStart(cur, total), WindowEnd(cur, total))
  {
    var s := WindowStart(cur, total);
    assert Span(s, WindowEnd(cur, total))[cur - s] == cur;
  }

  /** The window is contiguous and ascending, and no page number gets two
      buttons: the shortcuts sit strictly outside the window. */
  lemma ButtonsIncreasing(cur: int, total: int, itemsPerPage: Option<int>, totalItems: int)
    requires total > 1
    ensures var b := Render(cur, total, itemsPerPage, totalItems).value;
      b.pages == Span(WindowStart(cur, total), WindowEnd(cur, total))
      && StrictlyIncreasing(Buttons(b))
  {
    var b := Render(cur, total, itemsPerPage, totalItems).value;
    var s := WindowStart(cur, total);
    var e := WindowEnd(cur, total);
    WindowBounds(cur, total);
    var left: seq<int> := if b.firstShortcut then [1] else [];
    var right: seq<int> := if b.lastShortcut then [total] else [];
    var bs := Buttons(b);
    assert bs == left + b.pages + right;
    forall i, j | 0 <= i < j < |bs| ensures bs[i] < bs[j] {
      assert forall k :: 0 <= k < |left| ==> left[k] < s;
      assert forall k :: 0 <= k < |right| ==> right[k] > e;
      if i < |left| {
        assert bs[i] == 1;
      }
      if j >= |left| + |b.pages| {
        assert bs[j] == total;
      }
    }
  }

  /** No page is lost: every page from 1 to `totalPages` has a button or
      lies in the gap an ellipsis stands for; and an ellipsis is shown
      exactly when its gap holds at least one page. */
  lemma EveryPageReachable(cur: int, total: int, itemsPerPage: Option<int>, totalItems: int, p: int)
    requires total > 1 && 1 <= p <= total
    ensures var b := Render(cur, total, itemsPerPage, totalItems).value;
      p in Buttons(b)
      || (b.leftEllipsis && 1 < p < WindowStart(cur, total))
      || (b.rightEllipsis && WindowEnd(cur, total) < p < total)
  {
    var b := Render(cur, total, itemsPerPage, totalItems).value;
    var s := WindowStart(cur, total);
    var e := WindowEnd(cur, total);
    WindowBounds(cur, total);
    if s <= p <= e {
      assert b.pages[p - s] == p;
      assert p in b.pages;
    } else if p == 1 {
      assert Buttons(b)[0] == 1;
    } else if p == total {
      assert Buttons(b)[|Buttons(b)| - 1] == total;
    }
  }

  lemma EllipsisMarksGap(cur: int, total: int, itemsPerPage: Option<int>, totalItems: int)
    requires total > 1
    ensures var b := Render(cur, total, itemsPerPage, totalItems).value;
      (b.leftEllipsis <==> exists p :: 1 < p < WindowStart(cur, total) && p !in Buttons(b))
      && (b.rightEllipsis <==> exists p :: WindowEnd(cur, total) < p < total && p !in Buttons(b))
  {
    var b := Render(cur, total, itemsPerPage, totalItems).value;
    var s := WindowStart(cur, total);
    var e := WindowEnd(cur, total);
    ButtonsIncreasing(cur, total, itemsPerPage, totalItems);
    var bs := Buttons(b);
    if b.leftEllipsis {
      assert 1 < 2 < s && 2 !in bs;
    }
    if b.rightEllipsis {
      assert e < total - 1 < total && total - 1 !in bs;
    }
  }

  /** "Назад" is disabled exactly on the first page and "Вперёд" exactly on
      the last one. */
  lemma PrevNextDisabled(cur: int, total: int, itemsPerPage: Option<int>, totalItems: int)
    requires total > 1 && 1 <= cur <= total
    ensures var b := Render(cur, total, itemsPerPage, totalItems).value;
      (b.prevDisabled <==> cur - 1 < 1) && (b.nextDisabled <==> cur + 1 > total)
  {
  }

  /** The caption counts the items of the current page: from
      `(currentPage - 1) * itemsPerPage + 1` on, `itemsPerPage` of them
      except on a last page that is not full. */
  lemma ShownRange(cur: int, total: int, itemsPerPage: Option<int>, totalItems: int)
    requires total > 1 && cur >= 1 && PerPage(itemsPerPage) >= 1
    requires (cur - 1) * PerPage(itemsPerPage) < totalItems
    ensures var b := Render(cur, total, itemsPerPage, totalItems).value;
      b.shownFrom <= b.shownTo
      && b.shownTo - b.shownFrom + 1 == Min(PerPage(itemsPerPage), totalItems - (cur - 1) * PerPage(itemsPerPage))
  {
  }
}
