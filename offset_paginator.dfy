/** The offset paginator: LIMIT/OFFSET over a clone of its query, with the total
    counted once and cached. */
module OffsetPaging {
  import opened Common
  import opened Query
  import opened Model
  import opened Paging
  import opened Strategies

  /** The total a page reports: the cached one, or else the count of the Doctrine
      paginator over the page's window. */
  function OffsetTotal(qb: Descriptor, fetchJoinCollection: bool, cached: Option<int>,
                       page: int, pageSize: int, env: Env): int {
    cached.GetOr(env.pagedCount(Window(qb, page, pageSize), fetchJoinCollection))
  }

  /** The outcome of `paginate($page, $pageSize)` from the given state. */
  function OffsetPage(qb: Descriptor, fetchJoinCollection: bool, cached: Option<int>,
                      page: int, pageSize: int, env: Env): Outcome<PaginationResult> {
    PageResult(env.paged(Window(qb, page, pageSize), fetchJoinCollection), page, pageSize,
               OffsetTotal(qb, fetchJoinCollection, cached, page, pageSize, env))
  }

  class OffsetPaginator {
    var queryBuilder: Descriptor
    var fetchJoinCollection: bool
    /** The cached total; none until the first page is counted. */
    var totalItems: Option<int>

    /** A cached total is a row count, so never negative. */
    ghost predicate Valid()
      reads this
    {
      totalItems.Some? ==> totalItems.value >= 0
    }

    constructor (qb: Descriptor)
      ensures Valid()
      ensures queryBuilder == qb && fetchJoinCollection && totalItems == None
    {
      queryBuilder := qb;
      fetchJoinCollection := true;
      totalItems := None;
    }

    /** `getQueryBuilder()`: the descriptor last set. */
    method GetQueryBuilder() returns (qb: Descriptor)
      ensures qb == queryBuilder
    {
      qb := queryBuilder;
    }

    /** `setQueryBuilder()`: a new query invalidates the cached total. */
    method SetQueryBuilder(qb: Descriptor)
      modifies this
      ensures Valid()
      ensures queryBuilder == qb && totalItems == None
      ensures fetchJoinCollection == old(fetchJoinCollection)
    {
      queryBuilder := qb;
      totalItems := None;
    }

    /** `getStrategy()`. */
    function GetStrategy(): (name: string)
      ensures KindOf(name) == Some(OffsetKind)
    {
      Offset
    }

    method SetFetchJoinCollection(fetchJoinCollection: bool)
      requires Valid()
      modifies this
      ensures Valid()
      ensures this.fetchJoinCollection == fetchJoinCollection
      ensures queryBuilder == old(queryBuilder) && totalItems == old(totalItems)
    {
      this.fetchJoinCollection := fetchJoinCollection;
    }

    /** `clearCache()`: the next page counts the total again. */
    method ClearCache()
      modifies this
      ensures Valid()
      ensures totalItems == None
      ensures queryBuilder == old(queryBuilder) && fetchJoinCollection == old(fetchJoinCollection)
    {
      totalItems := None;
    }

    /** `getTotalItems($paginator)`: the cached total, or else the count of the
        Doctrine paginator over the window, which is then cached. */
    method TotalItems(window: Descriptor, env: Env) returns (total: int)
      requires Valid()
      modifies this
      ensures Valid()
      ensures old(totalItems).Some? ==> total == old(totalItems).value
      ensures old(totalItems).None? ==> total == env.pagedCount(window, fetchJoinCollection)
      ensures totalItems == Some(total)
      ensures queryBuilder == old(queryBuilder) && fetchJoinCollection == old(fetchJoinCollection)
    {
      if totalItems.Some? {
        return totalItems.value;
      }
      total := env.pagedCount(window, fetchJoinCollection);
      totalItems := Some(total);
    }

    /** `paginate($page, $pageSize)`: the window is set on a clone, its rows fetched,
        the total taken from the cache or counted, and the page record built. The
        calls made on the clone come back in `calls`; the paginator's own query is
        never changed. A page size of zero fails after the total is cached. */
    method Paginate(page: int, pageSize: int, env: Env) returns (r: Outcome<PaginationResult>, calls: seq<Call>)
      requires Valid()
      modifies this
      ensures Valid()
      ensures calls == WindowCalls(page, pageSize)
      ensures r == OffsetPage(queryBuilder, fetchJoinCollection, old(totalItems), page, pageSize, env)
      ensures totalItems == Some(OffsetTotal(queryBuilder, fetchJoinCollection, old(totalItems), page, pageSize, env))
      ensures queryBuilder == old(queryBuilder) && fetchJoinCollection == old(fetchJoinCollection)
    {
      var offset := (page - 1) * pageSize;
      var qb := new Builder(queryBuilder);
      qb.Perform(SetFirstResult(offset));
      qb.Perform(SetMaxResults(pageSize));
      assert qb.log == WindowCalls(page, pageSize);
      assert qb.desc == Window(queryBuilder, page, pageSize);
      var items := env.paged(qb.desc, fetchJoinCollection);
      var total := TotalItems(qb.desc, env);
      if pageSize == 0 {
        return Err(DivisionByZero), qb.log;
      }
      var lastItem := if items != [] then items[|items| - 1] else Null;
      // the page count passed here is recomputed by the record (TotalPagesArgumentIgnored)
      r := Ok(Make(items, page, pageSize, total, 0, offset + pageSize < total, lastItem));
      calls := qb.log;
    }

    /** `paginateAfter($lastCursor, $pageSize)`: no cursor support, so the cursor is
        ignored and the first page is returned. */
    method PaginateAfter(lastCursor: Val, pageSize: int, env: Env) returns (r: Outcome<PaginationResult>, calls: seq<Call>)
      requires Valid()
      modifies this
      ensures Valid()
      ensures calls == WindowCalls(1, pageSize)
      ensures r == OffsetPage(queryBuilder, fetchJoinCollection, old(totalItems), 1, pageSize, env)
      ensures totalItems == Some(OffsetTotal(queryBuilder, fetchJoinCollection, old(totalItems), 1, pageSize, env))
      ensures queryBuilder == old(queryBuilder) && fetchJoinCollection == old(fetchJoinCollection)
    {
      r, calls := Paginate(1, pageSize, env);
    }
  }
}
