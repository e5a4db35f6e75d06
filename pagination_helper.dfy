/** The pagination helper: one-call entry points that build a paginator through the
    factory and run one page on it. */
module Helper {
  import opened Common
  import opened Query
  import opened Model
  import opened Strategies
  import opened QueryAnalyzer
  import opened Paging
  import opened OffsetPaging
  import opened SearchAfterPaging
  import Paginators
  import opened AutoPaging
  import opened Factory

  /** `paginateAuto($qb, $page, $pageSize)`: a new auto paginator runs the page, so the
      page comes from a fresh paginator of the recommended kind. */
  function PaginateAuto(qb: Descriptor, page: int, pageSize: int, env: Env): (r: Outcome<PaginationResult>)
    ensures var k := KindOf(Recommend(qb, PageOffset(page, pageSize), None)).value;
            r == Paginators.Paginate(Paginators.Initial(k, qb), page, pageSize, env).0
    ensures PageOffset(page, pageSize) < SmallOffset ==> r == OffsetPage(qb, true, None, page, pageSize, env)
  {
    AutoPaginate(AutoState(qb, None, None), page, pageSize, env).0
  }

  /** `paginateAfter($qb, $lastCursor, $pageSize)`: a new search-after paginator runs
      the page after the cursor. */
  function PaginateAfter(qb: Descriptor, lastCursor: Val, pageSize: int, env: Env): (r: Outcome<PaginationResult>)
    ensures r == SearchAfterPage(qb, "id", [], lastCursor, pageSize, env)
    ensures r.Err? <==> qb.rootAliases == []
    ensures r.Ok? ==> r.value.currentPage == 1 && r.value.total == 0 && r.value.totalPages == 0
  {
    Paginators.PaginateAfter(Paginators.Initial(SearchAfterKind, qb), lastCursor, pageSize, env).0
  }

  /** `paginate($qb, $page, $pageSize, $lastCursor)`: keyset paging after a cursor,
      else automatic paging by page number. */
  function Paginate(qb: Descriptor, page: int, pageSize: int, lastCursor: Val, env: Env): (r: Outcome<PaginationResult>)
    ensures lastCursor != Null ==> r == SearchAfterPage(qb, "id", [], lastCursor, pageSize, env)
    ensures lastCursor == Null ==> r == PaginateAuto(qb, page, pageSize, env)
  {
    if lastCursor != Null then PaginateAfter(qb, lastCursor, pageSize, env)
    else PaginateAuto(qb, page, pageSize, env)
  }

  /** With a cursor the page number plays no part. */
  lemma CursorIgnoresPage(qb: Descriptor, page1: int, page2: int, pageSize: int, lastCursor: Val, env: Env)
    requires lastCursor != Null
    ensures Paginate(qb, page1, pageSize, lastCursor, env) == Paginate(qb, page2, pageSize, lastCursor, env)
  {
  }

  /** `paginateOffset($qb, $page, $pageSize)`: a new offset paginator, so the total is
      counted over this page's window and the rows are the window's rows. */
  function PaginateOffset(qb: Descriptor, page: int, pageSize: int, env: Env): (r: Outcome<PaginationResult>)
    ensures pageSize == 0 ==> r == Err(DivisionByZero)
    ensures pageSize != 0 ==>
              r.Ok? &&
              r.value.items == env.paged(Window(qb, page, pageSize), true) &&
              r.value.total == env.pagedCount(Window(qb, page, pageSize), true) &&
              r.value.currentPage == page && r.value.pageSize == pageSize
  {
    Paginators.Paginate(Paginators.Initial(OffsetKind, qb), page, pageSize, env).0
  }

  /** `createPaginator($qb, $strategy)`: the factory's `create`. */
  method CreatePaginator(qb: Descriptor, strategy: Option<string>) returns (p: Created)
    ensures CreatedKind(strategy).None? ==>
              p.AutoCreated? && fresh(p.auto) && p.auto.Valid() && p.auto.Abstract() == AutoState(qb, None, None)
    ensures CreatedKind(strategy).Some? ==>
              p.ConcreteCreated? && fresh(p.delegate.Obj()) && p.delegate.Valid() &&
              p.delegate.State() == Paginators.Initial(CreatedKind(strategy).value, qb)
  {
    p := Factory.Create(qb, strategy);
  }

  /** `paginateToArray(...)`: the page `paginate` gives, as `toArray()` renders it. */
  function PaginateToArray(qb: Descriptor, page: int, pageSize: int, lastCursor: Val, env: Env): (r: Outcome<seq<(string, Field)>>)
    ensures r.Ok? <==> Paginate(qb, page, pageSize, lastCursor, env).Ok?
    ensures r.Ok? ==> FromArray(r.value) == Some(Paginate(qb, page, pageSize, lastCursor, env).value)
    ensures r.Err? ==> r.error == Paginate(qb, page, pageSize, lastCursor, env).error
  {
    match Paginate(qb, page, pageSize, lastCursor, env)
    case Ok(result) =>
      ToArrayRoundTrip(result);
      Ok(ToArray(result))
    case Err(e) => Err(e)
  }

  /** The request parameters `quickPaginate` reads; a missing or null entry is none
      (`lastCursor` is then `Null`). */
  datatype Params = Params(page: Option<int>, pageSize: Option<int>, lastCursor: Val)

  /** `quickPaginate($qb, $params)`: page 1, 10 per page and no cursor unless given. */
  function QuickPaginate(qb: Descriptor, params: Params, env: Env): (r: Outcome<seq<(string, Field)>>)
    ensures params.page.Some? && params.pageSize.Some? ==>
              r == PaginateToArray(qb, params.page.value, params.pageSize.value, params.lastCursor, env)
    ensures params.page.None? ==> r == PaginateToArray(qb, 1, params.pageSize.GetOr(10), params.lastCursor, env)
    ensures params.pageSize.None? ==> r == PaginateToArray(qb, params.page.GetOr(1), 10, params.lastCursor, env)
  {
    PaginateToArray(qb, params.page.GetOr(1), params.pageSize.GetOr(10), params.lastCursor, env)
  }

  /** With no parameters, the first ten rows by automatic paging. */
  lemma QuickDefaults(qb: Descriptor, env: Env)
    ensures QuickPaginate(qb, Params(None, None, Null), env) == PaginateToArray(qb, 1, 10, Null, env)
    ensures var r := QuickPaginate(qb, Params(None, None, Null), env);
            r.Ok? && FromArray(r.value) == Some(OffsetPage(qb, true, None, 1, 10, env).value)
  {
  }
}
