/** The sub-query paginator: the offset window over a clone, with the total taken
    from a separate COUNT query that is built once and cached. */
module SubQueryPaging {
  import opened Common
  import opened Query
  import opened Model
  import opened Paging
  import opened Strategies

  /** The hint set on the fetch query of both paths. */
  const CountWalkerHint: Call :=
    QueryHint("doctrine.customOutputWalker", "Doctrine\\ORM\\Tools\\Pagination\\CountOutputWalker")

  /** The calls that turn a clone of `qb` into its count query: selection and
      ordering reset, then `COUNT(alias.id)` selected when there is a root alias. */
  function CountCalls(qb: Descriptor): (calls: seq<Call>)
    ensures |calls| >= 2 && calls[..2] == [ResetSelect, ResetOrderBy]
  {
    if qb.rootAliases == [] then [ResetSelect, ResetOrderBy]
    else [ResetSelect, ResetOrderBy, Select("COUNT(" + qb.rootAliases[0] + ".id)")]
  }

  /** The count query: the query with no ordering, selecting the count of root ids
      (or nothing, when there is no root alias); all else as in the query. */
  function CountQuery(qb: Descriptor): (c: Descriptor)
    ensures c.orderBy == []
    ensures qb.rootAliases != [] ==> c.select == ["COUNT(" + qb.rootAliases[0] + ".id)"]
    ensures qb.rootAliases == [] ==> c.select == []
    ensures c == qb.(select := c.select, orderBy := [])
  {
    if qb.rootAliases == [] then
      ReplayTwo(qb, ResetSelect, ResetOrderBy);
      Replay(qb, CountCalls(qb))
    else
      ReplayThree(qb, ResetSelect, ResetOrderBy, Select("COUNT(" + qb.rootAliases[0] + ".id)"));
      Replay(qb, CountCalls(qb))
  }

  /** The fetch window with the hint recorded after it. */
  function FetchCalls(page: int, pageSize: int): seq<Call> {
    WindowCalls(page, pageSize) + [CountWalkerHint]
  }

  /** The page `paginateAfter` returns: the first `pageSize` rows, with no total;
      more is assumed exactly when the window came back full. */
  function FirstPage(items: seq<Val>, pageSize: int): (r: PaginationResult)
    ensures WellFormed(r) && r.items == items && r.lastItem == LastOf(items)
    ensures r.currentPage == 1 && r.pageSize == pageSize
    ensures r.total == 0 && r.totalPages == 0
    ensures r.hasMore <==> |items| == pageSize
  {
    Make(items, 1, pageSize, 0, 0, |items| == pageSize, LastOf(items))
  }

  /** The total a page reports: the cached one, or else the count query's result. */
  function SubQueryTotal(qb: Descriptor, cached: Option<int>, env: Env): int {
    cached.GetOr(env.scalar(CountQuery(qb)))
  }

  /** The outcome of `paginate($page, $pageSize)` from the given state. */
  function SubQueryPage(qb: Descriptor, cached: Option<int>, page: int, pageSize: int, env: Env): Outcome<PaginationResult> {
    PageResult(env.paged(Window(qb, page, pageSize), true), page, pageSize, SubQueryTotal(qb, cached, env))
  }

  /** The outcome of `paginateAfter($lastCursor, $pageSize)`, whatever the cursor. */
  function SubQueryAfter(qb: Descriptor, pageSize: int, env: Env): PaginationResult {
    FirstPage(env.paged(Window(qb, 1, pageSize), true), pageSize)
  }

  class SubQueryPaginator {
    var queryBuilder: Descriptor
    /** The cached total; none until the count query has run. */
    var totalItems: Option<int>

    constructor (qb: Descriptor)
      ensures queryBuilder == qb && totalItems == None
    {
      queryBuilder := qb;
      totalItems := None;
    }

    method GetQueryBuilder() returns (qb: Descriptor)
      ensures qb == queryBuilder
    {
      qb := queryBuilder;
    }

    /** `setQueryBuilder()`: a new query invalidates the cached total. */
    method SetQueryBuilder(qb: Descriptor)
      modifies this
      ensures queryBuilder == qb && totalItems == None
    {
      queryBuilder := qb;
      totalItems := None;
    }

    /** `getStrategy()`. */
    function GetStrategy(): (name: string)
      ensures KindOf(name) == Some(SubQueryKind)
    {
      SubQuery
    }

    /** `clearCache()`. */
    method ClearCache()
      modifies this
      ensures totalItems == None && queryBuilder == old(queryBuilder)
    {
      totalItems := None;
    }

    /** `createCountQueryBuilder()`, on a fresh clone. */
    method CreateCountQueryBuilder() returns (countQb: Descriptor, calls: seq<Call>)
      ensures calls == CountCalls(queryBuilder)
      ensures countQb == CountQuery(queryBuilder)
    {
      var b := new Builder(queryBuilder);
      b.Perform(ResetSelect);
      b.Perform(ResetOrderBy);
      if queryBuilder.rootAliases != [] {
        var rootAlias := queryBuilder.rootAliases[0];
        b.Perform(Select("COUNT(" + rootAlias + ".id)"));
      }
      countQb, calls := b.desc, b.log;
    }

    /** `getTotalItems()`: the cached total, or else the count query's scalar result,
        which is then cached. `built` is the count query when one was built. */
    method TotalItems(env: Env) returns (total: int, built: Option<Descriptor>)
      modifies this
      ensures built.None? <==> old(totalItems).Some?
      ensures old(totalItems).Some? ==> total == old(totalItems).value
      ensures old(totalItems).None? ==>
                built == Some(CountQuery(queryBuilder)) && total == env.scalar(CountQuery(queryBuilder))
      ensures totalItems == Some(total) && queryBuilder == old(queryBuilder)
    {
      if totalItems.Some? {
        return totalItems.value, None;
      }
      var countQb, _ := CreateCountQueryBuilder();
      total := env.scalar(countQb);
      totalItems := Some(total);
      built := Some(countQb);
    }

    /** `paginate($page, $pageSize)`: the same window and `hasMore` rule as the offset
        paginator; the total comes from the count query, built only when nothing is
        cached. A page size of zero fails after the total is cached. */
    method Paginate(page: int, pageSize: int, env: Env)
      returns (r: Outcome<PaginationResult>, calls: seq<Call>, built: Option<Descriptor>)
      modifies this
      ensures calls == FetchCalls(page, pageSize)
      ensures built.None? <==> old(totalItems).Some?
      ensures built.Some? ==> built.value == CountQuery(queryBuilder)
      ensures r == SubQueryPage(queryBuilder, old(totalItems), page, pageSize, env)
      ensures totalItems == Some(SubQueryTotal(queryBuilder, old(totalItems), env))
      ensures queryBuilder == old(queryBuilder)
    {
      var offset := (page - 1) * pageSize;
      var qb := new Builder(queryBuilder);
      qb.Perform(SetFirstResult(offset));
      qb.Perform(SetMaxResults(pageSize));
      assert qb.desc == Window(queryBuilder, page, pageSize);
      qb.Perform(CountWalkerHint);
      var items := env.paged(qb.desc, true);
      var total;
      total, built := TotalItems(env);
      calls := qb.log;
      if pageSize == 0 {
        return Err(DivisionByZero), calls, built;
      }
      var lastItem := if items != [] then items[|items| - 1] else Null;
      // the page count passed here is recomputed by the record (TotalPagesArgumentIgnored)
      r := Ok(Make(items, page, pageSize, total, 0, offset + pageSize < total, lastItem));
    }

    /** `paginateAfter($lastCursor, $pageSize)`: the cursor is ignored and the first
        window is fetched, with no count query and no change to the cache. */
    method PaginateAfter(lastCursor: Val, pageSize: int, env: Env) returns (r: PaginationResult, calls: seq<Call>)
      ensures calls == FetchCalls(1, pageSize)
      ensures r == SubQueryAfter(queryBuilder, pageSize, env)
    {
      var qb := new Builder(queryBuilder);
      qb.Perform(SetFirstResult(0));
      qb.Perform(SetMaxResults(pageSize));
      assert qb.desc == Window(queryBuilder, 1, pageSize);
      qb.Perform(CountWalkerHint);
      var items := env.paged(qb.desc, true);
      var lastItem := if items != [] then items[|items| - 1] else Null;
      r := Make(items, 1, pageSize, 0, 0, |items| == pageSize, lastItem);
      calls := qb.log;
    }
  }
}
