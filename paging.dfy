/** The page-window arithmetic shared by the offset and sub-query paginators: the
    window put on the clone and the page record built from a window's rows. */
module Paging {
  import opened Common
  import opened Query
  import opened Model

  /** `($page - 1) * $pageSize`: rows skipped before the page. */
  function PageOffset(page: int, pageSize: int): int {
    (page - 1) * pageSize
  }

  /** `setFirstResult($offset)->setMaxResults($pageSize)` on the clone. */
  function WindowCalls(page: int, pageSize: int): (calls: seq<Call>)
    ensures |calls| == 2
  {
    [SetFirstResult(PageOffset(page, pageSize)), SetMaxResults(pageSize)]
  }

  /** The clone after the window calls: only the first result and the maximum change. */
  function Window(qb: Descriptor, page: int, pageSize: int): (w: Descriptor)
    ensures w.firstResult == (page - 1) * pageSize && w.maxResults == Some(pageSize)
    ensures w == qb.(firstResult := w.firstResult, maxResults := w.maxResults)
  {
    ReplayTwo(qb, SetFirstResult(PageOffset(page, pageSize)), SetMaxResults(pageSize));
    Replay(qb, WindowCalls(page, pageSize))
  }

  /** The page record built from a window's rows and a total. PHP divides by the page
      size to compute the page count, which fails for a page size of zero even though
      the record then discards that count. */
  function PageResult(items: seq<Val>, page: int, pageSize: int, total: int): (r: Outcome<PaginationResult>)
    ensures r.Err? <==> pageSize == 0
    ensures r.Err? ==> r.error == DivisionByZero
    ensures r.Ok? ==> WellFormed(r.value)
    ensures r.Ok? ==> r.value.items == items && r.value.lastItem == LastOf(items)
    ensures r.Ok? ==> r.value.currentPage == page && r.value.pageSize == pageSize && r.value.total == total
    ensures r.Ok? ==> (r.value.hasMore <==> (page - 1) * pageSize + pageSize < total)
  {
    if pageSize == 0 then Err(DivisionByZero)
    else Ok(Make(items, page, pageSize, total, 0, PageOffset(page, pageSize) + pageSize < total, LastOf(items)))
  }

  /** For a positive page size, "more rows after this window" is the same as "this
      is not the last page". */
  lemma {:induction false} HasMoreIffBeforeLastPage(items: seq<Val>, page: int, pageSize: int, total: int)
    requires pageSize > 0
    ensures PageResult(items, page, pageSize, total).Ok?
    ensures var r := PageResult(items, page, pageSize, total).value;
            r.hasMore <==> r.currentPage < r.totalPages
  {
    var r := PageResult(items, page, pageSize, total).value;
    var t := r.totalPages;
    assert (t - 1) * pageSize < total <= t * pageSize;
    assert (page - 1) * pageSize + pageSize == page * pageSize;
    if page < t {
      MulMonotone(page, t - 1, pageSize);
    } else {
      MulMonotone(t, page, pageSize);
    }
  }

  /** 42 rows in pages of 10 make 5 pages; 100 rows make 10. */
  lemma PageCountExamples(items: seq<Val>)
    ensures PageResult(items, 1, 10, 42).value.totalPages == 5
    ensures PageResult(items, 3, 10, 100).value.totalPages == 10
  {
    PageCountUnique(42, 10, PageResult(items, 1, 10, 42).value.totalPages, 5);
    PageCountUnique(100, 10, PageResult(items, 3, 10, 100).value.totalPages, 10);
  }
}
