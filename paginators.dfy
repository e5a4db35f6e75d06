/** The common paginator interface (`paginate`, `paginateAfter`, `getStrategy`) over
    the three concrete paginators, as the abstract state each one holds and the
    objects that hold it. */
module Paginators {
  import opened Common
  import opened Query
  import opened Model
  import opened Paging
  import opened Strategies
  import opened OffsetPaging
  import opened SubQueryPaging
  import opened SearchAfterPaging

  /** What a concrete paginator holds: its query and its configuration or cache. */
  datatype PState =
    | OffsetState(queryBuilder: Descriptor, fetchJoinCollection: bool, totalItems: Option<int>)
    | SubQueryState(queryBuilder: Descriptor, totalItems: Option<int>)
    | SearchAfterState(queryBuilder: Descriptor, idField: string, orderFields: seq<string>)

  /** `getStrategy()`. */
  function StrategyOf(s: PState): (name: string)
    ensures KindOf(name) == Some(StateKind(s))
  {
    KindName(StateKind(s))
  }

  function StateKind(s: PState): Kind {
    match s
    case OffsetState(_, _, _) => OffsetKind
    case SubQueryState(_, _) => SubQueryKind
    case SearchAfterState(_, _, _) => SearchAfterKind
  }

  /** A paginator of the given kind freshly built over `qb`, with its defaults. */
  function Initial(k: Kind, qb: Descriptor): (s: PState)
    ensures StateKind(s) == k && s.queryBuilder == qb
  {
    match k
    case OffsetKind => OffsetState(qb, true, None)
    case SubQueryKind => SubQueryState(qb, None)
    case SearchAfterKind => SearchAfterState(qb, "id", [])
  }

  /** `paginate($page, $pageSize)`: the outcome and the state afterwards. */
  function Paginate(s: PState, page: int, pageSize: int, env: Env): (r: (Outcome<PaginationResult>, PState))
    ensures StateKind(r.1) == StateKind(s) && r.1.queryBuilder == s.queryBuilder
  {
    match s
    case OffsetState(qb, fjc, cached) =>
      (OffsetPage(qb, fjc, cached, page, pageSize, env),
       OffsetState(qb, fjc, Some(OffsetTotal(qb, fjc, cached, page, pageSize, env))))
    case SubQueryState(qb, cached) =>
      (SubQueryPage(qb, cached, page, pageSize, env), SubQueryState(qb, Some(SubQueryTotal(qb, cached, env))))
    case SearchAfterState(qb, idField, orderFields) =>
      (SearchAfterPage(qb, idField, orderFields, Null, pageSize, env), s)
  }

  /** `paginateAfter($lastCursor, $pageSize)`: the outcome and the state afterwards. */
  function PaginateAfter(s: PState, lastCursor: Val, pageSize: int, env: Env): (r: (Outcome<PaginationResult>, PState))
    ensures StateKind(r.1) == StateKind(s) && r.1.queryBuilder == s.queryBuilder
  {
    match s
    case OffsetState(_, _, _) => Paginate(s, 1, pageSize, env)
    case SubQueryState(qb, _) => (Ok(SubQueryAfter(qb, pageSize, env)), s)
    case SearchAfterState(qb, idField, orderFields) =>
      (SearchAfterPage(qb, idField, orderFields, lastCursor, pageSize, env), s)
  }

  // Properties of the interface

  /** Offset and sub-query paging count the total once: a later page reports the total
      of the first, and nothing is counted again. */
  lemma {:induction false} TotalCountedOnce(s: PState, page1: int, page2: int, pageSize: int, env: Env)
    requires s.OffsetState? || s.SubQueryState?
    requires pageSize != 0
    ensures var (r1, s1) := Paginate(s, page1, pageSize, env);
            var (r2, s2) := Paginate(s1, page2, pageSize, env);
            r1.Ok? && r2.Ok? && r2.value.total == r1.value.total && s2 == s1
  {
    var (r1, s1) := Paginate(s, page1, pageSize, env);
    assert s1.totalItems == Some(r1.value.total);
  }

  /** Both windowed paginators say "more" exactly before the last page. */
  lemma HasMoreBeforeLastPage(s: PState, page: int, pageSize: int, env: Env)
    requires s.OffsetState? || s.SubQueryState?
    requires pageSize > 0
    ensures var r := Paginate(s, page, pageSize, env).0;
            r.Ok? && (r.value.hasMore <==> r.value.currentPage < r.value.totalPages)
  {
    var r := Paginate(s, page, pageSize, env).0;
    HasMoreIffBeforeLastPage(r.value.items, page, pageSize, r.value.total);
  }

  /** A page size of zero is a division by zero for both windowed paginators, and the
      total is cached all the same. */
  lemma ZeroPageSizeFails(s: PState, page: int, env: Env)
    requires s.OffsetState? || s.SubQueryState?
    ensures var (r, s1) := Paginate(s, page, 0, env);
            r == Err(DivisionByZero) && s1.totalItems.Some?
  {
  }

  /** The search-after paginator ignores the page number: `paginate` is
      `paginateAfter(null)`, for every page. */
  lemma SearchAfterIgnoresPage(s: PState, page: int, pageSize: int, env: Env)
    requires s.SearchAfterState?
    ensures Paginate(s, page, pageSize, env) == PaginateAfter(s, Null, pageSize, env)
  {
  }

  /** The offset paginator ignores the cursor: `paginateAfter` is the first page. */
  lemma OffsetIgnoresCursor(s: PState, lastCursor: Val, pageSize: int, env: Env)
    requires s.OffsetState?
    ensures PaginateAfter(s, lastCursor, pageSize, env) == Paginate(s, 1, pageSize, env)
  {
  }

  /** The sub-query paginator's `paginateAfter` ignores the cursor, reports no total
      and leaves its cache alone. */
  lemma SubQueryAfterIgnoresCursor(s: PState, c1: Val, c2: Val, pageSize: int, env: Env)
    requires s.SubQueryState?
    ensures PaginateAfter(s, c1, pageSize, env) == PaginateAfter(s, c2, pageSize, env)
    ensures var (r, s1) := PaginateAfter(s, c1, pageSize, env);
            s1 == s && r.Ok? && r.value.total == 0 && r.value.totalPages == 0 && r.value.currentPage == 1
  {
  }

  /** A concrete paginator object, as the auto paginator and the factory hold one. */
  datatype Delegate =
    | OffsetDelegate(offset: OffsetPaginator)
    | SubQueryDelegate(subQuery: SubQueryPaginator)
    | SearchAfterDelegate(searchAfter: SearchAfterPaginator)
  {
    function Obj(): object {
      match this
      case OffsetDelegate(p) => p
      case SubQueryDelegate(p) => p
      case SearchAfterDelegate(p) => p
    }

    ghost predicate Valid()
      reads Obj()
    {
      OffsetDelegate? ==> offset.Valid()
    }

    /** The state the object holds. */
    ghost function State(): PState
      reads Obj()
    {
      match this
      case OffsetDelegate(p) => OffsetState(p.queryBuilder, p.fetchJoinCollection, p.totalItems)
      case SubQueryDelegate(p) => SubQueryState(p.queryBuilder, p.totalItems)
      case SearchAfterDelegate(p) => SearchAfterState(p.queryBuilder, p.idField, p.orderFields)
    }
  }

  /** A fresh paginator of the given kind over `qb`. */
  method NewDelegate(k: Kind, qb: Descriptor) returns (d: Delegate)
    ensures fresh(d.Obj()) && d.Valid() && d.State() == Initial(k, qb)
  {
    match k
    case OffsetKind =>
      var p := new OffsetPaginator(qb);
      d := OffsetDelegate(p);
    case SubQueryKind =>
      var p := new SubQueryPaginator(qb);
      d := SubQueryDelegate(p);
    case SearchAfterKind =>
      var p := new SearchAfterPaginator(qb, []);
      d := SearchAfterDelegate(p);
  }

  /** `$paginator->paginate($page, $pageSize)` on whichever paginator `d` holds. */
  method DelegatePaginate(d: Delegate, page: int, pageSize: int, env: Env) returns (r: Outcome<PaginationResult>)
    requires d.Valid()
    modifies d.Obj()
    ensures d.Valid()
    ensures (r, d.State()) == Paginate(old(d.State()), page, pageSize, env)
  {
    match d
    case OffsetDelegate(p) =>
      var calls;
      r, calls := p.Paginate(page, pageSize, env);
    case SubQueryDelegate(p) =>
      var calls, built;
      r, calls, built := p.Paginate(page, pageSize, env);
    case SearchAfterDelegate(p) =>
      var calls;
      r, calls := p.Paginate(page, pageSize, env);
  }

  /** `$paginator->paginateAfter($lastCursor, $pageSize)` on whichever paginator `d` holds. */
  method DelegatePaginateAfter(d: Delegate, lastCursor: Val, pageSize: int, env: Env) returns (r: Outcome<PaginationResult>)
    requires d.Valid()
    modifies d.Obj()
    ensures d.Valid()
    ensures (r, d.State()) == PaginateAfter(old(d.State()), lastCursor, pageSize, env)
  {
    match d
    case OffsetDelegate(p) =>
      var calls;
      r, calls := p.PaginateAfter(lastCursor, pageSize, env);
    case SubQueryDelegate(p) =>
      var page, calls := p.PaginateAfter(lastCursor, pageSize, env);
      r := Ok(page);
    case SearchAfterDelegate(p) =>
      var calls;
      r, calls := p.PaginateAfter(lastCursor, pageSize, env);
  }
}
