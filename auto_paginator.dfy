/** The auto paginator: it picks a concrete paginator on first use, from a forced
    strategy or from the query analyzer's recommendation, keeps it, and runs every
    page through it. */
module AutoPaging {
  import opened Common
  import opened Query
  import opened Model
  import opened Text
  import opened Strategies
  import opened QueryAnalyzer
  import opened Paging
  import opened OffsetPaging
  import opened SearchAfterPaging
  import opened Paginators

  /** `createPaginatorForStrategy($strategy)`: the kind of paginator built, and how many
      times the analyzer is consulted to decide it. A concrete name decides alone;
      `auto` or any other name asks the analyzer once, with offset 0 and no cursor,
      and so always ends with the offset paginator. */
  function ResolveKind(strategy: string, qb: Descriptor): (r: (Kind, nat))
    ensures KindOf(strategy).Some? ==> r == (KindOf(strategy).value, 0)
    ensures KindOf(strategy).None? ==> r == (OffsetKind, 1)
  {
    match KindOf(strategy)
    case Some(k) => (k, 0)
    case None => (KindOf(Recommend(qb, 0, None)).value, 1)
  }

  /** The string `getPaginatorForCursor` hands the analyzer: an array is JSON-encoded
      (none when encoding fails); anything else is cast to a string, so `null`
      becomes the empty string. */
  function CursorString(lastCursor: Val, env: Env): (r: Option<string>)
    ensures !lastCursor.Map? ==> r.Some?
    ensures lastCursor == Null ==> r == Some("")
    ensures lastCursor.Map? ==> r == env.jsonEncode(lastCursor)
  {
    match lastCursor
    case Map(_) => env.jsonEncode(lastCursor)
    case Null => Some("")
    case Scalar(Int(n)) => Some(IntToString(n))
    case Scalar(Str(s)) => Some(s)
    case Scalar(Bool(b)) => Some(if b then "1" else "")
    case Obj(_) => Some(env.objectString(lastCursor))
  }

  /** The kind `getPaginatorForOffset` builds when it builds one, and the number of
      analyzer consultations: the forced strategy, or else the recommendation for the
      page's offset. */
  function SelectForOffset(forced: Option<string>, qb: Descriptor, page: int, pageSize: int): (r: (Kind, nat))
    ensures forced.None? ==> r.1 == 1 && KindName(r.0) == Recommend(qb, PageOffset(page, pageSize), None)
    ensures forced.Some? ==> r == ResolveKind(forced.value, qb)
  {
    match forced
    case Some(name) => ResolveKind(name, qb)
    case None =>
      var r := ResolveKind(Recommend(qb, PageOffset(page, pageSize), None), qb);
      (r.0, r.1 + 1)
  }

  /** The kind `getPaginatorForCursor` builds when it builds one, and the number of
      analyzer consultations: the forced strategy, or else the recommendation for
      offset 0 and the cursor string. */
  function SelectForCursor(forced: Option<string>, qb: Descriptor, cursorString: Option<string>): (r: (Kind, nat))
    ensures forced.None? && cursorString.Some? ==> r == (SearchAfterKind, 1)
    ensures forced.None? && cursorString.None? ==> r == (OffsetKind, 1)
    ensures forced.Some? ==> r == ResolveKind(forced.value, qb)
  {
    match forced
    case Some(name) => ResolveKind(name, qb)
    case None =>
      var r := ResolveKind(Recommend(qb, 0, cursorString), qb);
      (r.0, r.1 + 1)
  }

  /** What an auto paginator holds: its query, the forced strategy, and the state of
      the paginator it has picked, if any. */
  datatype AutoState = AutoState(queryBuilder: Descriptor, forcedStrategy: Option<string>, current: Option<PState>)

  /** The picked paginator runs the auto paginator's own query. */
  ghost predicate Coherent(s: AutoState) {
    s.current.Some? ==> s.current.value.queryBuilder == s.queryBuilder
  }

  /** The picked paginator is kept only while no strategy is forced. */
  predicate Reuses(s: AutoState) {
    s.current.Some? && s.forcedStrategy.None?
  }

  /** The paginator `paginate` runs, and the analyzer consultations to find it. */
  function PaginatorForOffset(s: AutoState, page: int, pageSize: int): (PState, nat) {
    if Reuses(s) then (s.current.value, 0)
    else
      var (k, n) := SelectForOffset(s.forcedStrategy, s.queryBuilder, page, pageSize);
      (Initial(k, s.queryBuilder), n)
  }

  /** The paginator `paginateAfter` runs, and the analyzer consultations to find it. */
  function PaginatorForCursor(s: AutoState, lastCursor: Val, env: Env): (PState, nat) {
    if Reuses(s) then (s.current.value, 0)
    else
      var (k, n) := SelectForCursor(s.forcedStrategy, s.queryBuilder, CursorString(lastCursor, env));
      (Initial(k, s.queryBuilder), n)
  }

  /** `paginate($page, $pageSize)`: the outcome, the state afterwards and the number
      of analyzer consultations. */
  function AutoPaginate(s: AutoState, page: int, pageSize: int, env: Env): (Outcome<PaginationResult>, AutoState, nat) {
    var (p, n) := PaginatorForOffset(s, page, pageSize);
    var (r, p1) := Paginate(p, page, pageSize, env);
    (r, s.(current := Some(p1)), n)
  }

  /** `paginateAfter($lastCursor, $pageSize)`: the outcome, the state afterwards and
      the number of analyzer consultations. */
  function AutoPaginateAfter(s: AutoState, lastCursor: Val, pageSize: int, env: Env): (Outcome<PaginationResult>, AutoState, nat) {
    var (p, n) := PaginatorForCursor(s, lastCursor, env);
    var (r, p1) := PaginateAfter(p, lastCursor, pageSize, env);
    (r, s.(current := Some(p1)), n)
  }

  // Properties of the auto paginator

  /** Paging keeps the picked paginator on the auto paginator's own query, and leaves
      the query and the forced strategy alone. */
  lemma {:induction false} PagingKeepsCoherence(s: AutoState, page: int, lastCursor: Val, pageSize: int, env: Env)
    requires Coherent(s)
    ensures var s1 := AutoPaginate(s, page, pageSize, env).1;
            Coherent(s1) && s1.current.Some? && s1.queryBuilder == s.queryBuilder && s1.forcedStrategy == s.forcedStrategy
    ensures var s1 := AutoPaginateAfter(s, lastCursor, pageSize, env).1;
            Coherent(s1) && s1.current.Some? && s1.queryBuilder == s.queryBuilder && s1.forcedStrategy == s.forcedStrategy
  {
    var p := PaginatorForOffset(s, page, pageSize).0;
    assert p.queryBuilder == s.queryBuilder;
    var q := PaginatorForCursor(s, lastCursor, env).0;
    assert q.queryBuilder == s.queryBuilder;
  }

  /** With a paginator picked and nothing forced, the analyzer is not consulted and the
      picked paginator runs the page from the state it is in. */
  lemma ReuseSkipsAnalyzer(s: AutoState, page: int, lastCursor: Val, pageSize: int, env: Env)
    requires Reuses(s)
    ensures var (r, s1, n) := AutoPaginate(s, page, pageSize, env);
            n == 0 && (r, s1.current.value) == Paginate(s.current.value, page, pageSize, env)
    ensures var (r, s1, n) := AutoPaginateAfter(s, lastCursor, pageSize, env);
            n == 0 && (r, s1.current.value) == PaginateAfter(s.current.value, lastCursor, pageSize, env)
  {
  }

  /** Unforced, the first page asks the analyzer once, for the page's offset; every
      later page, whatever its offset, goes to the same paginator without asking. */
  lemma {:induction false} FirstPageDecides(s: AutoState, page1: int, page2: int, pageSize: int, env: Env)
    requires s.forcedStrategy.None? && s.current.None?
    ensures var (r1, s1, n1) := AutoPaginate(s, page1, pageSize, env);
            var (r2, s2, n2) := AutoPaginate(s1, page2, pageSize, env);
            n1 == 1 && n2 == 0 &&
            KindName(StateKind(s1.current.value)) == Recommend(s.queryBuilder, PageOffset(page1, pageSize), None) &&
            StateKind(s2.current.value) == StateKind(s1.current.value)
  {
    var (r1, s1, n1) := AutoPaginate(s, page1, pageSize, env);
    var p := PaginatorForOffset(s, page1, pageSize).0;
    assert Reuses(s1);
  }

  /** Unforced, a picked offset or sub-query paginator counts the total once: the
      second page reports the first page's total. */
  lemma {:induction false} UnforcedCountsOnce(s: AutoState, page1: int, page2: int, pageSize: int, env: Env)
    requires s.forcedStrategy.None? && s.current.None?
    requires pageSize != 0
    requires !KindOf(Recommend(s.queryBuilder, PageOffset(page1, pageSize), None)).value.SearchAfterKind?
    ensures var (r1, s1, n1) := AutoPaginate(s, page1, pageSize, env);
            var (r2, s2, n2) := AutoPaginate(s1, page2, pageSize, env);
            r1.Ok? && r2.Ok? && r2.value.total == r1.value.total
  {
    var p := PaginatorForOffset(s, page1, pageSize).0;
    assert p.OffsetState? || p.SubQueryState?;
    TotalCountedOnce(p, page1, page2, pageSize, env);
  }

  /** A forced concrete strategy never consults the analyzer and runs each page on a
      fresh paginator of that kind: whatever was picked before is dropped. */
  lemma ForcedBuildsFresh(s: AutoState, k: Kind, page: int, lastCursor: Val, pageSize: int, env: Env)
    requires s.forcedStrategy == Some(KindName(k))
    ensures var (r, s1, n) := AutoPaginate(s, page, pageSize, env);
            n == 0 && (r, s1.current.value) == Paginate(Initial(k, s.queryBuilder), page, pageSize, env)
    ensures var (r, s1, n) := AutoPaginateAfter(s, lastCursor, pageSize, env);
            n == 0 && (r, s1.current.value) == PaginateAfter(Initial(k, s.queryBuilder), lastCursor, pageSize, env)
  {
  }

  /** Forcing `offset` loses the cached total: each page is counted anew, over its own
      window. */
  lemma {:induction false} ForcedOffsetRecounts(s: AutoState, page1: int, page2: int, pageSize: int, env: Env)
    requires s.forcedStrategy == Some(Offset)
    requires pageSize != 0
    ensures var (r1, s1, n1) := AutoPaginate(s, page1, pageSize, env);
            var (r2, s2, n2) := AutoPaginate(s1, page2, pageSize, env);
            r2.Ok? && r2.value.total == env.pagedCount(Window(s.queryBuilder, page2, pageSize), true)
  {
    var s1 := AutoPaginate(s, page1, pageSize, env).1;
    ForcedBuildsFresh(s, OffsetKind, page1, Null, pageSize, env);
    assert s1.forcedStrategy == Some(KindName(OffsetKind));
    ForcedBuildsFresh(s1, OffsetKind, page2, Null, pageSize, env);
  }

  /** Forcing `auto` is not the same as forcing nothing: the analyzer is asked once
      with offset 0 and no cursor, so every page and every cursor runs on a fresh
      offset paginator. */
  lemma ForcedAutoIsOffset(s: AutoState, page: int, lastCursor: Val, pageSize: int, env: Env)
    requires s.forcedStrategy == Some(Auto)
    ensures var (r, s1, n) := AutoPaginate(s, page, pageSize, env);
            n == 1 && (r, s1.current.value) == Paginate(Initial(OffsetKind, s.queryBuilder), page, pageSize, env)
    ensures var (r, s1, n) := AutoPaginateAfter(s, lastCursor, pageSize, env);
            n == 1 && (r, s1.current.value) == PaginateAfter(Initial(OffsetKind, s.queryBuilder), lastCursor, pageSize, env)
  {
  }

  /** Unforced and unpicked, a cursor that renders to a string picks the search-after
      paginator, and the page is the one it returns after that cursor. */
  lemma {:induction false} CursorPicksSearchAfter(s: AutoState, lastCursor: Val, pageSize: int, env: Env)
    requires s.forcedStrategy.None? && s.current.None?
    requires CursorString(lastCursor, env).Some?
    ensures var (r, s1, n) := AutoPaginateAfter(s, lastCursor, pageSize, env);
            n == 1 && StateKind(s1.current.value) == SearchAfterKind &&
            r == SearchAfterPage(s.queryBuilder, "id", [], lastCursor, pageSize, env)
  {
    var p := PaginatorForCursor(s, lastCursor, env).0;
    assert p == SearchAfterState(s.queryBuilder, "id", []);
  }

  /** A `null` cursor renders to the empty string, which is a cursor all the same. */
  lemma NullCursorPicksSearchAfter(s: AutoState, pageSize: int, env: Env)
    requires s.forcedStrategy.None? && s.current.None?
    ensures var (r, s1, n) := AutoPaginateAfter(s, Null, pageSize, env);
            StateKind(s1.current.value) == SearchAfterKind &&
            r == SearchAfterPage(s.queryBuilder, "id", [], Null, pageSize, env)
  {
    CursorPicksSearchAfter(s, Null, pageSize, env);
  }

  /** An array cursor that JSON cannot encode leaves the analyzer with no cursor, so it
      picks the offset paginator, which returns the first page. */
  lemma {:induction false} UnencodableCursorPicksOffset(s: AutoState, lastCursor: Val, pageSize: int, env: Env)
    requires s.forcedStrategy.None? && s.current.None?
    requires lastCursor.Map? && env.jsonEncode(lastCursor).None?
    ensures var (r, s1, n) := AutoPaginateAfter(s, lastCursor, pageSize, env);
            n == 1 && StateKind(s1.current.value) == OffsetKind &&
            r == OffsetPage(s.queryBuilder, true, None, 1, pageSize, env)
  {
    var p := PaginatorForCursor(s, lastCursor, env).0;
    assert p == OffsetState(s.queryBuilder, true, None);
  }

  class AutoPaginator {
    var queryBuilder: Descriptor
    var forcedStrategy: Option<string>
    /** The paginator picked on first use; none until then, and again after the query or
        the forced strategy changes. */
    var currentPaginator: Option<Delegate>

    /** The picked paginator's object, if any. */
    ghost function Held(): set<object>
      reads this
    {
      if currentPaginator.Some? then {currentPaginator.value.Obj()} else {}
    }

    /** A forced strategy is a known name, and the picked paginator runs this query. */
    ghost predicate Valid()
      reads this, Held()
    {
      (forcedStrategy.Some? ==> IsStrategy(forcedStrategy.value)) &&
      (currentPaginator.Some? ==> currentPaginator.value.Valid()) &&
      Coherent(Abstract())
    }

    ghost function Abstract(): AutoState
      reads this, Held()
    {
      AutoState(queryBuilder, forcedStrategy,
                if currentPaginator.Some? then Some(currentPaginator.value.State()) else None)
    }

    constructor (qb: Descriptor)
      ensures Valid() && Abstract() == AutoState(qb, None, None)
    {
      queryBuilder := qb;
      forcedStrategy := None;
      currentPaginator := None;
    }

    method GetQueryBuilder() returns (qb: Descriptor)
      ensures qb == queryBuilder
    {
      qb := queryBuilder;
    }

    /** `setQueryBuilder()`: the picked paginator ran the old query, so it is dropped. */
    method SetQueryBuilder(qb: Descriptor)
      requires Valid()
      modifies this
      ensures Valid() && Abstract() == old(Abstract()).(queryBuilder := qb, current := None)
    {
      queryBuilder := qb;
      currentPaginator := None;
    }

    /** `getStrategy()`: the forced strategy, or `auto`. */
    function GetStrategy(): (name: string)
      reads this, Held()
      requires Valid()
      ensures IsStrategy(name)
      ensures forcedStrategy.None? ==> name == Auto
      ensures forcedStrategy.Some? ==> name == forcedStrategy.value
    {
      StrategyNames(Auto);
      forcedStrategy.GetOr(Auto)
    }

    /** `forceStrategy($strategy)`: an unknown name is refused and changes nothing; a
        known one, or none, is recorded and drops the picked paginator. */
    method ForceStrategy(strategy: Option<string>) returns (err: Option<Error>)
      requires Valid()
      modifies this
      ensures Valid()
      ensures strategy.Some? && !IsStrategy(strategy.value) ==>
                err == Some(InvalidPaginationStrategy(strategy.value)) && Abstract() == old(Abstract())
      ensures !(strategy.Some? && !IsStrategy(strategy.value)) ==>
                err == None && Abstract() == old(Abstract()).(forcedStrategy := strategy, current := None)
    {
      if strategy.Some? && !IsStrategy(strategy.value) {
        return Some(InvalidPaginationStrategy(strategy.value));
      }
      forcedStrategy := strategy;
      currentPaginator := None;
      err := None;
    }

    /** `getCurrentPaginator()`. */
    method GetCurrentPaginator() returns (d: Option<Delegate>)
      ensures d == currentPaginator
    {
      d := currentPaginator;
    }

    /** `getAnalysisResult()`: the analyzer's report on this query. */
    method GetAnalysisResult(env: Env) returns (f: Features)
      ensures f == Analyze(queryBuilder, env)
    {
      f := Analyze(queryBuilder, env);
    }

    /** `createPaginatorForStrategy($strategy)`: a fresh paginator over this query; for
        `auto` or an unknown name, the one for the analyzer's recommendation at offset 0,
        which is always a concrete name, so the recursion stops there. */
    method CreatePaginatorForStrategy(strategy: string) returns (d: Delegate, consulted: nat)
      ensures fresh(d.Obj()) && d.Valid()
      ensures (d.State(), consulted) == (Initial(ResolveKind(strategy, queryBuilder).0, queryBuilder),
                                         ResolveKind(strategy, queryBuilder).1)
      decreases if KindOf(strategy).Some? then 0 else 1
    {
      match KindOf(strategy)
      case Some(k) =>
        d := NewDelegate(k, queryBuilder);
        consulted := 0;
      case None =>
        var recommended := Recommend(queryBuilder, 0, None);
        var n;
        d, n := CreatePaginatorForStrategy(recommended);
        consulted := n + 1;
    }

    /** `createPaginator($strategy)`: build the paginator and keep it. */
    method CreatePaginator(strategy: string) returns (d: Delegate, consulted: nat)
      requires Valid()
      modifies this
      ensures Valid() && fresh(d.Obj()) && currentPaginator == Some(d)
      ensures (d.State(), consulted) == (Initial(ResolveKind(strategy, queryBuilder).0, queryBuilder),
                                         ResolveKind(strategy, queryBuilder).1)
      ensures queryBuilder == old(queryBuilder) && forcedStrategy == old(forcedStrategy)
    {
      d, consulted := CreatePaginatorForStrategy(strategy);
      currentPaginator := Some(d);
    }

    /** `getPaginatorForOffset($page, $pageSize)`: the kept paginator when nothing is
        forced, else a new one for the forced or recommended strategy. */
    method GetPaginatorForOffset(page: int, pageSize: int) returns (d: Delegate, consulted: nat)
      requires Valid()
      modifies this
      ensures Valid() && currentPaginator == Some(d)
      ensures (d.State(), consulted) == PaginatorForOffset(old(Abstract()), page, pageSize)
      ensures Reuses(old(Abstract())) ==> d == old(currentPaginator).value
      ensures !Reuses(old(Abstract())) ==> fresh(d.Obj())
      ensures queryBuilder == old(queryBuilder) && forcedStrategy == old(forcedStrategy)
    {
      if currentPaginator.Some? && forcedStrategy.None? {
        return currentPaginator.value, 0;
      }
      var offset := (page - 1) * pageSize;
      var strategy, asked;
      if forcedStrategy.Some? {
        strategy, asked := forcedStrategy.value, 0;
      } else {
        strategy, asked := Recommend(queryBuilder, offset, None), 1;
      }
      var n;
      d, n := CreatePaginator(strategy);
      consulted := n + asked;
    }

    /** `getPaginatorForCursor($lastCursor)`: the kept paginator when nothing is forced,
        else a new one for the forced strategy or for the recommendation given the
        cursor's string form. */
    method GetPaginatorForCursor(lastCursor: Val, env: Env) returns (d: Delegate, consulted: nat)
      requires Valid()
      modifies this
      ensures Valid() && currentPaginator == Some(d)
      ensures (d.State(), consulted) == PaginatorForCursor(old(Abstract()), lastCursor, env)
      ensures Reuses(old(Abstract())) ==> d == old(currentPaginator).value
      ensures !Reuses(old(Abstract())) ==> fresh(d.Obj())
      ensures queryBuilder == old(queryBuilder) && forcedStrategy == old(forcedStrategy)
    {
      if currentPaginator.Some? && forcedStrategy.None? {
        return currentPaginator.value, 0;
      }
      var cursorString := CursorString(lastCursor, env);
      var strategy, asked;
      if forcedStrategy.Some? {
        strategy, asked := forcedStrategy.value, 0;
      } else {
        strategy, asked := Recommend(queryBuilder, 0, cursorString), 1;
      }
      var n;
      d, n := CreatePaginator(strategy);
      consulted := n + asked;
    }

    /** `paginate($page, $pageSize)`. */
    method Paginate(page: int, pageSize: int, env: Env) returns (r: Outcome<PaginationResult>, consulted: nat)
      requires Valid()
      modifies this, Held()
      ensures Valid()
      ensures (r, Abstract(), consulted) == AutoPaginate(old(Abstract()), page, pageSize, env)
    {
      var d;
      d, consulted := GetPaginatorForOffset(page, pageSize);
      r := DelegatePaginate(d, page, pageSize, env);
    }

    /** `paginateAfter($lastCursor, $pageSize)`. */
    method PaginateAfter(lastCursor: Val, pageSize: int, env: Env) returns (r: Outcome<PaginationResult>, consulted: nat)
      requires Valid()
      modifies this, Held()
      ensures Valid()
      ensures (r, Abstract(), consulted) == AutoPaginateAfter(old(Abstract()), lastCursor, pageSize, env)
    {
      var d;
      d, consulted := GetPaginatorForCursor(lastCursor, env);
      r := DelegatePaginateAfter(d, lastCursor, pageSize, env);
    }
  }
}
