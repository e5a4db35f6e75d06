# Doctrine paginator bundle: the pagination engine in Dafny

This project models the engine of `tourze/doctrine-paginator-bundle`. The engine pages through the rows of a Doctrine query in one of three ways:

- **offset**: LIMIT/OFFSET over a clone of the query, with a total that is counted once and cached;
- **sub_query**: the same window, with the total taken from a separate COUNT query;
- **search_after**: keyset pagination, which orders the clone, constrains it to rows after the last row seen (the *cursor*), fetches one row more than a page and drops it.

An **auto** paginator picks one of the three from a query analyzer's recommendation, or from a forced strategy. It keeps the paginator it picked while nothing is forced. A factory turns strategy names into paginators. A helper offers one-call entry points.

How the model is built:

- **Queries.** A Doctrine `QueryBuilder` is a value, `Query.Descriptor`, holding the query parts the engine reads.
- **Clones.** A clone (`clone $qb`) is a fresh `Query.Builder` object. It records every builder call it receives (`orderBy`, `addOrderBy`, `andWhere`, `setParameter`, `setFirstResult`, `setMaxResults`, `resetDQLPart`, `select`, query hints) in a log. Its invariant is that its descriptor is the original with the log applied.
- **Ordering calls.** Doctrine's `orderBy` replaces the ordering and `addOrderBy` appends to it. The model keeps that distinction.
- **Execution.** Running a query is a set of oracle functions in `Query.Env`: rows, Doctrine paginator rows and count, a scalar count, the analyzer's count probe, `json_encode` and the string cast of an object.
- **Errors.** Exceptions are `Err` outcomes:
  - `InvalidPaginationException` and `InvalidPaginationStrategyException`;
  - PHP's `DivisionByZeroError`, which the offset and sub-query paginators raise for a page size of 0.

Where the source is imperative, the model is a class:

- the three concrete paginators (`queryBuilder` field and cached `totalItems`);
- the auto paginator (`forcedStrategy` and `currentPaginator` fields);
- the clone.

Each state-changing method is proved against a pure function of the old state: `OffsetPage`, `SubQueryPage`, `SearchAfterPage`, `Paginators.Paginate` and `AutoPaging.AutoPaginate`. The properties are lemmas about those functions.

The common paginator interface has two parts:

- `Paginators.PState`, the state a concrete paginator holds, with pure `Paginate`/`PaginateAfter` over it;
- `Paginators.Delegate`, a paginator object of one of the three classes.

## Model

| member | source | states |
|---|---|---|
| Model.Make | src/Model/PaginationResult.php:21-31 | every field is as given, except `totalPages`, which is recomputed: the ceiling of total/pageSize for a positive page size, else 0 |
| Model.TotalPagesArgumentIgnored | src/Model/PaginationResult.php:30 | two records built with different `totalPages` arguments are equal |
| Model.PageCountUnique | src/Model/PaginationResult.php:30 | the page count that fits `total` and `pageSize` is unique, so `totalPages` is determined |
| Model.Empty | src/Model/PaginationResult.php:36-39 | no items, total 0, 0 pages, no more, null last item; page and size as given |
| Model.Create | src/Model/PaginationResult.php:45-55 | the same record as the constructor |
| Model.TotalItems | src/Model/PaginationResult.php:85-96 | `getTotalItems()` equals `getTotal()` |
| Model.CursorOf | src/Model/PaginationResult.php:126-157 | no cursor exactly for a null row. Otherwise the first matching case: an array with `created_at` set, whole; an array with `id` set, `{id}` alone; any other array, whole; an object with `getId`, `{id: getId()}`; anything else, `{value: row}` |
| Model.LastCursor | src/Model/PaginationResult.php:126-130 | none exactly when the last item is null |
| Model.ToArray | src/Model/PaginationResult.php:163-174 | exactly seven entries, keyed by the getter names in order |
| Model.ToArrayRoundTrip | src/Model/PaginationResult.php:163-174 | the record is recovered from `toArray()`: nothing is lost |
| Strategies.AllStrategies | src/Paginator/PaginatorStrategies.php:39-47 | four pairwise distinct names, in the order offset, sub_query, search_after, auto |
| Strategies.StrategyNames | src/Paginator/PaginatorStrategies.php:16-47 | a name is a strategy iff it is one of the four constants; `auto` is one |
| Strategies.KindOf | src/Paginator/PaginatorStrategies.php:16-28 | a concrete kind exactly for the three names other than `auto`, and that kind's name is the given name |
| QueryAnalyzer.Recommend | src/Service/QueryAnalyzer.php:19-47 | the decision table. A cursor gives search_after. Below offset 10000: offset. Below 1000000: sub_query iff joins or complex conditions, else offset. Otherwise: search_after iff an indexable ordering, else sub_query. The result is always a concrete name |
| QueryAnalyzer.RecommendFromFeatures | src/Service/QueryAnalyzer.php:27-46 | with no cursor, the recommendation depends only on the offset and the three features `analyze()` reports |
| QueryAnalyzer.RecommendNeverAuto | src/Service/QueryAnalyzer.php:19-47 | the recommendation is never `auto` |
| QueryAnalyzer.Analyze | src/Service/QueryAnalyzer.php:53-67 | each reported feature is the corresponding test on the query, `hasHaving` included as written: the having part is not the empty array (see Findings) |
| QueryAnalyzer.AnalyzeCorrected | src/Service/QueryAnalyzer.php:53-67 | the evidently intended report: `hasHaving` iff a HAVING condition is present, never for an absent one; every other field as `analyze()` reports it, and the whole report equal to it once a having part exists |
| QueryAnalyzer.HasJoins | src/Service/QueryAnalyzer.php:72-83 | true iff some root alias has a non-empty join list |
| QueryAnalyzer.HasComplexConditions | src/Service/QueryAnalyzer.php:88-120 | false for a null or array WHERE part; for an expression, true iff one of the seven patterns occurs in it, ignoring case |
| QueryAnalyzer.OrderByFields | src/Service/QueryAnalyzer.php:126-138 | the keys are unique and are exactly the ordering's expressions |
| QueryAnalyzer.OrderByFieldsLatestWins | src/Service/QueryAnalyzer.php:133-135 | an expression ordered several times keeps the direction of its last clause |
| QueryAnalyzer.HasIndexableOrderBy | src/Service/QueryAnalyzer.php:143-160 | true iff some ordering expression contains `.id` anywhere |
| QueryAnalyzer.IdentifierCountsAsIndexable | src/Service/QueryAnalyzer.php:154 | `o.identifier` counts as indexable: the test is a substring test |
| QueryAnalyzer.CountProbe | src/Service/QueryAnalyzer.php:166-186 | no probe without a root alias; otherwise the query with ordering reset and `COUNT(alias)` selected |
| QueryAnalyzer.EstimateRowCount | src/Service/QueryAnalyzer.php:166-194 | the probe's count, or 1000000 when there is no root alias or the probe fails |
| QueryAnalyzer.HasDistinct | src/Service/QueryAnalyzer.php:199-214 | true iff some selected expression contains `DISTINCT`, ignoring case |
| QueryAnalyzer.HasLimit | src/Service/QueryAnalyzer.php:219-222 | true iff a maximum result count is set |
| QueryAnalyzer.HasHavingAsWritten | src/Service/QueryAnalyzer.php:63 | the test as written: the having part is not the empty array |
| QueryAnalyzer.HavingReportedWithoutHavingClause | src/Service/QueryAnalyzer.php:63 | for a query with no HAVING clause, the written test and `analyze()` say it has one, while the corrected test and report say it has not, so the two reports differ |
| QueryAnalyzer.HasHaving | src/Service/QueryAnalyzer.php:63 | the corrected test: false when absent, true for an expression, true for a non-empty list |
| QueryAnalyzer.HasHavingAgreesWhenPresent | src/Service/QueryAnalyzer.php:63 | once a having part is present, the two tests agree |
| Paging.Window | src/Paginator/OffsetPaginator.php:60-68 | the clone's first result is `(page-1)*pageSize` and its maximum is `pageSize`; nothing else changes |
| Paging.PageResult | src/Paginator/OffsetPaginator.php:80-88 | an error exactly for page size 0 (division by zero). Otherwise a well-formed record with the window's rows in order, the last row, the page, size and total as given, and more rows iff `offset + pageSize < total` |
| Paging.HasMoreIffBeforeLastPage | src/Paginator/OffsetPaginator.php:85-86 | for a positive page size, "more" holds exactly when the page is before the last page |
| Paging.PageCountExamples | src/Paginator/OffsetPaginator.php:85 | 42 rows in pages of 10 make 5 pages; 100 make 10 |
| OffsetPaging.OffsetPaginator.constructor | src/Paginator/OffsetPaginator.php:23-26 | holds the query, collection fetch joins on, no cached total |
| OffsetPaging.OffsetPaginator.GetQueryBuilder | src/Paginator/OffsetPaginator.php:28-31 | returns the query last set |
| OffsetPaging.OffsetPaginator.SetQueryBuilder | src/Paginator/OffsetPaginator.php:33-37 | replaces the query and clears the cached total |
| OffsetPaging.OffsetPaginator.GetStrategy | src/Paginator/OffsetPaginator.php:39-42 | the name of the offset kind |
| OffsetPaging.OffsetPaginator.SetFetchJoinCollection | src/Paginator/OffsetPaginator.php:47-50 | sets the flag; the query and the cache are unchanged |
| OffsetPaging.OffsetPaginator.ClearCache | src/Paginator/OffsetPaginator.php:109-112 | clears the cached total and nothing else |
| OffsetPaging.OffsetPaginator.TotalItems | src/Paginator/OffsetPaginator.php:95-104 | the cached total if any, else the Doctrine paginator's count; afterwards it is cached |
| OffsetPaging.OffsetPaginator.Paginate | src/Paginator/OffsetPaginator.php:58-89 | makes the window calls on a clone; returns `OffsetPage` of the old state; caches the total it reported |
| OffsetPaging.OffsetPaginator.PaginateAfter | src/Paginator/OffsetPaginator.php:52-56 | the first page, whatever the cursor |
| SubQueryPaging.CountCalls | src/Paginator/SubQueryPaginator.php:137-151 | the count clone's calls start by resetting the selection and the ordering |
| SubQueryPaging.CountQuery | src/Paginator/SubQueryPaginator.php:137-151 | the query without ordering, selecting `COUNT(alias.id)` (or nothing without a root alias), all else unchanged |
| SubQueryPaging.FirstPage | src/Paginator/SubQueryPaginator.php:52-66 | page 1, total 0, 0 pages, the rows in order and the last row; more iff exactly `pageSize` rows came back |
| SubQueryPaging.SubQueryPaginator.constructor | src/Paginator/SubQueryPaginator.php:21-24 | holds the query, no cached total |
| SubQueryPaging.SubQueryPaginator.GetQueryBuilder | src/Paginator/SubQueryPaginator.php:26-29 | returns the query last set |
| SubQueryPaging.SubQueryPaginator.SetQueryBuilder | src/Paginator/SubQueryPaginator.php:31-35 | replaces the query and clears the cached total |
| SubQueryPaging.SubQueryPaginator.GetStrategy | src/Paginator/SubQueryPaginator.php:37-40 | the name of the sub-query kind |
| SubQueryPaging.SubQueryPaginator.ClearCache | src/Paginator/SubQueryPaginator.php:119-122 | clears the cached total; the query is unchanged |
| SubQueryPaging.SubQueryPaginator.CreateCountQueryBuilder | src/Paginator/SubQueryPaginator.php:137-151 | makes the count calls on a fresh clone and returns the count query |
| SubQueryPaging.SubQueryPaginator.TotalItems | src/Paginator/SubQueryPaginator.php:104-114 | the cached total, or else the count query's result; the count query is built exactly when nothing is cached; the total is cached afterwards |
| SubQueryPaging.SubQueryPaginator.Paginate | src/Paginator/SubQueryPaginator.php:69-99 | the window calls and the hint on a clone; returns `SubQueryPage` of the old state; builds the count query only when nothing was cached |
| SubQueryPaging.SubQueryPaginator.PaginateAfter | src/Paginator/SubQueryPaginator.php:42-67 | the window `[0, pageSize)` with the hint; returns `FirstPage` of its rows; never counts and never changes the cache |
| SearchAfterPaging.SetupCallsAt | src/Paginator/SearchAfterPaginator.php:114-121 | call `k` of the setup is `orderBy(alias.field_k, ASC)`: one per configured field, in order |
| SearchAfterPaging.SetupOrdering | src/Paginator/SearchAfterPaginator.php:116-119 | because `orderBy` replaces, only the last configured field is left in the ordering |
| SearchAfterPaging.InferCalls | src/Paginator/SearchAfterPaginator.php:142-155 | a multi-field cursor orders by each of its fields and then adds the id; any other cursor orders by the id |
| SearchAfterPaging.EntryOrdering | src/Paginator/SearchAfterPaginator.php:145-147 | after the per-field `orderBy` calls, only the last cursor field is left |
| SearchAfterPaging.MultiFieldCursorOrdering | src/Paginator/SearchAfterPaginator.php:144-150 | a multi-field cursor leaves the ordering (last cursor field, id) |
| SearchAfterPaging.IdValue | src/Paginator/SearchAfterPaginator.php:197 | the cursor's id when it is set, else the whole cursor |
| SearchAfterPaging.EntryConditionCallsAt | src/Paginator/SearchAfterPaginator.php:273-277 | per cursor entry, in order: `alias.f > :cursor_f` and its parameter bound to the entry's value, at calls `2k` and `2k+1` |
| SearchAfterPaging.ExtractFieldName | src/Paginator/SearchAfterPaginator.php:299-309 | no dot: the name itself; otherwise the name is what follows the first dot |
| SearchAfterPaging.ExtractFieldNameOfQualified | src/Paginator/SearchAfterPaginator.php:299-309 | a name qualified by a dot-free alias loses exactly its alias |
| SearchAfterPaging.OrderFieldsOf | src/Paginator/SearchAfterPaginator.php:240-250 | one entry per ordering clause, in order: expression, bare field name, direction |
| SearchAfterPaging.SingleFieldBranchUnreachable | src/Paginator/SearchAfterPaginator.php:172-190 | the single-field helper is never chosen; the multi-field one is chosen exactly for a multi-field cursor on a non-empty ordering |
| SearchAfterPaging.Trim | src/Paginator/SearchAfterPaginator.php:79-83 | more iff more than `pageSize` rows came back, and then the last row is dropped; otherwise the rows are kept |
| SearchAfterPaging.TrimFitsPage | src/Paginator/SearchAfterPaginator.php:77-83 | when the query honoured the limit of `pageSize+1`, the page is a prefix of the rows, never longer than a page, and full whenever more follow |
| SearchAfterPaging.PageOf | src/Paginator/SearchAfterPaginator.php:85-95 | page 1, total 0, 0 pages, the trimmed rows and their last row |
| SearchAfterPaging.NullCursorPlan | src/Paginator/SearchAfterPaginator.php:64-77 | with no cursor: the configured orderings, then `id ASC` only when neither the query nor the configuration orders, then the limit of `pageSize+1` |
| SearchAfterPaging.SingleCursorPlan | src/Paginator/SearchAfterPaginator.php:126-201 | a single-valued cursor on an unordered query: `orderBy id`, then `id > :cursor_id` bound to the id, then the limit |
| SearchAfterPaging.SingleCursorOrderedPlan | src/Paginator/SearchAfterPaginator.php:126-201 | a single-valued cursor on an ordered query: the configured orderings, the id condition and its parameter, the limit |
| SearchAfterPaging.MultiCursorPlan | src/Paginator/SearchAfterPaginator.php:126-218 | a multi-field cursor on an unordered query: per-field `orderBy`, `addOrderBy id`, then the `(created_at, id)` condition only when both are set, then the limit |
| SearchAfterPaging.MultiCursorOrderedPlan | src/Paginator/SearchAfterPaginator.php:126-279 | a multi-field cursor on an ordered query: the evidently intended plan, namely the configured orderings, the multi-field condition sized by the ordering, the limit (as written this path raises a TypeError; see Left out) |
| SearchAfterPaging.ResumeAfterIdRow | src/Paginator/SearchAfterPaginator.php:126-201 | resuming from a row with an id and no `created_at` asks for ids greater than the row's id, with exactly these calls |
| SearchAfterPaging.CreatedAtCursorPlan | src/Paginator/SearchAfterPaginator.php:126-218 | the exact call sequence for a `created_at`/`id` cursor on an unordered query |
| SearchAfterPaging.SearchAfterPaginator.constructor | src/Paginator/SearchAfterPaginator.php:29-33 | holds the query and the configured fields; the id field is `id` |
| SearchAfterPaging.SearchAfterPaginator.GetQueryBuilder | src/Paginator/SearchAfterPaginator.php:35-38 | returns the query last set |
| SearchAfterPaging.SearchAfterPaginator.SetQueryBuilder | src/Paginator/SearchAfterPaginator.php:40-43 | replaces the query only |
| SearchAfterPaging.SearchAfterPaginator.GetStrategy | src/Paginator/SearchAfterPaginator.php:45-48 | the name of the search-after kind |
| SearchAfterPaging.SearchAfterPaginator.SetIdField | src/Paginator/SearchAfterPaginator.php:53-56 | sets the id field only |
| SearchAfterPaging.SearchAfterPaginator.Paginate | src/Paginator/SearchAfterPaginator.php:58-62 | the page after no cursor, whatever the page number |
| SearchAfterPaging.SearchAfterPaginator.PaginateAfter | src/Paginator/SearchAfterPaginator.php:64-96 | no root alias: the error, with no calls made. Otherwise the planned calls on the clone and the trimmed page of the result |
| SearchAfterPaging.SearchAfterPaginator.Plan | src/Paginator/SearchAfterPaginator.php:68-77 | the clone's log becomes exactly the planned calls |
| SearchAfterPaging.SearchAfterPaginator.Fetch | src/Paginator/SearchAfterPaginator.php:78-95 | the page of the rows the query returns |
| SearchAfterPaging.SearchAfterPaginator.ValidateAndGetRootAlias | src/Paginator/SearchAfterPaginator.php:101-109 | the first root alias, or the error when there is none |
| SearchAfterPaging.SearchAfterPaginator.SetupOrderByFields | src/Paginator/SearchAfterPaginator.php:114-121 | appends exactly the setup calls to the clone's log |
| SearchAfterPaging.SearchAfterPaginator.ApplyCursorCondition | src/Paginator/SearchAfterPaginator.php:126-136 | appends exactly the cursor calls for the clone's current ordering |
| SearchAfterPaging.SearchAfterPaginator.InferOrderingFromCursor | src/Paginator/SearchAfterPaginator.php:142-155 | appends exactly the inferred ordering calls; returns the marker for a multi-field cursor, else the new ordering |
| SearchAfterPaging.SearchAfterPaginator.EnsureDefaultOrdering | src/Paginator/SearchAfterPaginator.php:160-166 | appends `orderBy id` exactly when neither the clone nor the configuration orders |
| SearchAfterPaging.SearchAfterPaginator.AddSearchAfterCondition | src/Paginator/SearchAfterPaginator.php:172-190 | appends exactly the condition calls of the chosen branch |
| SearchAfterPaging.SearchAfterPaginator.AddSimpleCursorCondition | src/Paginator/SearchAfterPaginator.php:195-201 | appends `id > :cursor_id` and its parameter |
| SearchAfterPaging.SearchAfterPaginator.AddMultiFieldCursorMarkerCondition | src/Paginator/SearchAfterPaginator.php:206-218 | appends the `(created_at, id)` condition, `1=1` and both parameters when both are set, else nothing |
| SearchAfterPaging.SearchAfterPaginator.AddOrderBasedCursorCondition | src/Paginator/SearchAfterPaginator.php:224-233 | the evidently intended behaviour: appends the multi-field calls for a multi-field cursor, else the single-field calls (as written `extractOrderFields` raises a TypeError first; see Left out) |
| SearchAfterPaging.SearchAfterPaginator.ExtractOrderFields | src/Paginator/SearchAfterPaginator.php:240-250 | returns `OrderFieldsOf` the ordering: each clause's expression, its name without the alias, and its direction, in order (the intended reading; see Left out) |
| SearchAfterPaging.SearchAfterPaginator.AddMultiFieldCursorCondition | src/Paginator/SearchAfterPaginator.php:257-279 | both `created_at` and id set: the composite condition, `id > :cursor_id` when the ordering has more than one clause, and both parameters. Otherwise one condition per entry |
| SearchAfterPaging.SearchAfterPaginator.AddEntryConditions | src/Paginator/SearchAfterPaginator.php:273-277 | appends one condition and parameter per cursor entry, in order |
| SearchAfterPaging.SearchAfterPaginator.AddSingleFieldCursorCondition | src/Paginator/SearchAfterPaginator.php:284-294 | appends `id > :cursor_id` and its parameter unless the id value is null |
| Paginators.StrategyOf | src/Paginator/PaginatorInterface.php:41-44 | each paginator reports the name of its own kind |
| Paginators.Initial | src/Paginator/AutoPaginator.php:101-125 | a fresh paginator of the given kind over the given query |
| Paginators.Paginate | src/Paginator/PaginatorInterface.php:15-21 | a page never changes a paginator's kind or query |
| Paginators.PaginateAfter | src/Paginator/PaginatorInterface.php:23-29 | a page never changes a paginator's kind or query |
| Paginators.TotalCountedOnce | src/Paginator/OffsetPaginator.php:95-104 | offset and sub-query paginators report the first page's total on the next page and are then unchanged |
| Paginators.HasMoreBeforeLastPage | src/Paginator/SubQueryPaginator.php:90-98 | for both windowed paginators, "more" iff the page is before the last |
| Paginators.ZeroPageSizeFails | src/Paginator/OffsetPaginator.php:85 | a page size of 0 is a division by zero, raised after the total is cached |
| Paginators.SearchAfterIgnoresPage | src/Paginator/SearchAfterPaginator.php:58-62 | `paginate(page, s)` is `paginateAfter(null, s)` for every page |
| Paginators.OffsetIgnoresCursor | src/Paginator/OffsetPaginator.php:52-56 | `paginateAfter(c, s)` is `paginate(1, s)` |
| Paginators.SubQueryAfterIgnoresCursor | src/Paginator/SubQueryPaginator.php:42-67 | the cursor plays no part; page 1, total 0, 0 pages; the cache is untouched |
| Paginators.NewDelegate | src/Paginator/AutoPaginator.php:103-115 | a fresh paginator object holding the initial state of its kind |
| Paginators.DelegatePaginate | src/Paginator/AutoPaginator.php:64-69 | running a paginator object follows `Paginators.Paginate` on its state |
| Paginators.DelegatePaginateAfter | src/Paginator/AutoPaginator.php:127-132 | running a paginator object follows `Paginators.PaginateAfter` on its state |
| AutoPaging.ResolveKind | src/Paginator/AutoPaginator.php:101-125 | a concrete name builds its kind without consulting the analyzer; `auto` and any other name consult it once at offset 0 and so always build the offset kind |
| AutoPaging.CursorString | src/Paginator/AutoPaginator.php:143 | an array is JSON-encoded (none on failure); anything else always renders, and null renders as the empty string |
| AutoPaging.SelectForOffset | src/Paginator/AutoPaginator.php:80-83 | unforced: one consultation and the kind recommended for `(page-1)*pageSize`; forced: the forced name resolved |
| AutoPaging.SelectForCursor | src/Paginator/AutoPaginator.php:143-146 | unforced: search_after when the cursor renders, offset when it does not, after one consultation; forced: the forced name resolved |
| AutoPaging.PagingKeepsCoherence | src/Paginator/AutoPaginator.php:64-147 | paging leaves a paginator picked, on the auto paginator's own query; the query and the forced strategy are unchanged |
| AutoPaging.ReuseSkipsAnalyzer | src/Paginator/AutoPaginator.php:76-78 | a picked paginator with nothing forced is reused without consulting the analyzer |
| AutoPaging.FirstPageDecides | src/Paginator/AutoPaginator.php:74-95 | unforced, the first page consults once, for its offset; every later page goes to the same kind without consulting |
| AutoPaging.UnforcedCountsOnce | src/Paginator/AutoPaginator.php:76-78 | unforced, a picked offset or sub-query paginator reports the same total on the next page |
| AutoPaging.ForcedBuildsFresh | src/Paginator/AutoPaginator.php:76-84 | a forced concrete strategy never consults and runs every page on a fresh paginator of that kind |
| AutoPaging.ForcedOffsetRecounts | src/Paginator/AutoPaginator.php:76-84 | forcing offset loses the cache: each page's total is counted over its own window |
| AutoPaging.ForcedAutoIsOffset | src/Paginator/AutoPaginator.php:116-121 | forcing `auto` consults once per page and always runs a fresh offset paginator, whatever the page or cursor |
| AutoPaging.CursorPicksSearchAfter | src/Paginator/AutoPaginator.php:137-147 | unforced and unpicked, a cursor that renders picks search-after, and the page is that paginator's page after the cursor |
| AutoPaging.NullCursorPicksSearchAfter | src/Paginator/AutoPaginator.php:143-144 | a null cursor renders as the empty string and so picks search-after |
| AutoPaging.UnencodableCursorPicksOffset | src/Paginator/AutoPaginator.php:143-144 | an array cursor that JSON cannot encode picks the offset paginator and returns the first page |
| AutoPaging.AutoPaginator.constructor | src/Paginator/AutoPaginator.php:25-29 | the query, nothing forced, nothing picked |
| AutoPaging.AutoPaginator.GetQueryBuilder | src/Paginator/AutoPaginator.php:31-34 | returns the query last set |
| AutoPaging.AutoPaginator.SetQueryBuilder | src/Paginator/AutoPaginator.php:36-40 | replaces the query and drops the picked paginator |
| AutoPaging.AutoPaginator.GetStrategy | src/Paginator/AutoPaginator.php:42-49 | the forced strategy, or `auto`; always a known name |
| AutoPaging.AutoPaginator.ForceStrategy | src/Paginator/AutoPaginator.php:54-62 | an unknown name is refused with the error and changes nothing; a known name or none is recorded and drops the picked paginator |
| AutoPaging.AutoPaginator.GetCurrentPaginator | src/Paginator/AutoPaginator.php:152-155 | the picked paginator, if any |
| AutoPaging.AutoPaginator.GetAnalysisResult | src/Paginator/AutoPaginator.php:161-164 | the analyzer's report on the current query, as `analyze()` writes it, with the written `hasHaving` |
| AutoPaging.AutoPaginator.CreatePaginatorForStrategy | src/Paginator/AutoPaginator.php:101-125 | a fresh paginator of the resolved kind over the current query; the recursion stops after one step |
| AutoPaging.AutoPaginator.CreatePaginator | src/Paginator/AutoPaginator.php:89-95 | as above, and the new paginator is kept |
| AutoPaging.AutoPaginator.GetPaginatorForOffset | src/Paginator/AutoPaginator.php:74-84 | the kept paginator when nothing is forced and one is kept; otherwise a fresh one for the forced or recommended strategy, which is kept |
| AutoPaging.AutoPaginator.GetPaginatorForCursor | src/Paginator/AutoPaginator.php:137-147 | as above, with the recommendation for the cursor string at offset 0 |
| AutoPaging.AutoPaginator.Paginate | src/Paginator/AutoPaginator.php:64-69 | outcome, new state and consultations are `AutoPaginate` of the old state |
| AutoPaging.AutoPaginator.PaginateAfter | src/Paginator/AutoPaginator.php:127-132 | outcome, new state and consultations are `AutoPaginateAfter` of the old state |
| Factory.CreatedKind | src/Service/PaginatorFactory.php:30-50 | a concrete kind exactly for the three concrete names, of that name; none (auto) for no name, `auto` and unknown names |
| Factory.UnknownNameGivesAuto | src/Service/PaginatorFactory.php:46-48 | a name `forceStrategy` would refuse gives an auto paginator, without error |
| Factory.Create | src/Service/PaginatorFactory.php:30-50 | a fresh auto paginator over the query when no concrete kind is named, else a fresh paginator of the named kind in its initial state |
| Factory.CreateAuto | src/Service/PaginatorFactory.php:55-58 | a fresh auto paginator over the query, nothing forced or picked |
| Factory.CreateOffset | src/Service/PaginatorFactory.php:63-66 | a fresh offset paginator over the query |
| Factory.CreateSubQuery | src/Service/PaginatorFactory.php:71-74 | a fresh sub-query paginator over the query |
| Factory.CreateSearchAfter | src/Service/PaginatorFactory.php:79-82 | a fresh search-after paginator over the query, id field `id`, no configured fields |
| Helper.PaginateAuto | src/Helper/PaginationHelper.php:27-32 | the page of a fresh paginator of the recommended kind; the offset paginator's page for offsets below 10000 |
| Helper.PaginateAfter | src/Helper/PaginationHelper.php:50-55 | the search-after page after the cursor; an error exactly without a root alias; page 1, total 0 |
| Helper.Paginate | src/Helper/PaginationHelper.php:38-45 | a non-null cursor goes to search-after; a null one to automatic paging by page |
| Helper.CursorIgnoresPage | src/Helper/PaginationHelper.php:40-42 | with a cursor, the page number plays no part |
| Helper.PaginateOffset | src/Helper/PaginationHelper.php:60-65 | an error for page size 0; otherwise the window's rows with the total counted over that window |
| Helper.CreatePaginator | src/Helper/PaginationHelper.php:70-73 | the factory's `create` |
| Helper.PaginateToArray | src/Helper/PaginationHelper.php:93-98 | succeeds exactly when `paginate` does, and the array reads back as that very page |
| Helper.QuickPaginate | src/Helper/PaginationHelper.php:80-87 | a missing page is 1, a missing size is 10, a missing cursor is null |
| Helper.QuickDefaults | src/Helper/PaginationHelper.php:80-87 | with no parameters: the offset paginator's first page of 10 rows, as an array |

## Left out

- Doctrine itself is not modelled:
  - DQL building and rendering, SQL execution;
  - `DoctrinePaginator` iteration and counting;
  - the effect of the CountOutputWalker hint and of `fetchJoinCollection`.
  Rows, counts and the probe are oracle functions in `Query.Env`. The hint is only recorded in the clone's log.
- `Expr` objects in the WHERE part are taken as their rendered DQL text.
- `json_encode` and the string cast of an object are oracles. A float cursor is not modelled, since `Common.Val` has no floats. An object without `__toString` cast to a string is not modelled.
- `Common.CeilDiv`: exact integer ceiling instead of PHP's float division and `ceil`. The two differ only for totals beyond 2^53.
- `Paging.PageOffset`: unbounded integers. The case where `(page-1)*pageSize` overflows PHP's 64-bit integers into a float is not modelled.
- `PaginatorInterface` is modelled as the state datatype `Paginators.PState` and the object datatype `Paginators.Delegate`, both covering the three concrete paginators. A user-defined implementation of the interface is not modelled.
- `PaginatorFactory::getQueryAnalyzer` and the analyzer the factory and the auto paginator receive are not modelled. The analyzer holds no state and is modelled as functions, so there is nothing to hand back.
- The overridable `createDoctrinePaginator` and `createCountQueryBuilder` seams are not modelled; the paginators use the default behaviour.
- Exception messages are not modelled, except the search-after root-alias message. `InvalidPaginationStrategy` carries the refused name but not the list of available strategies in its message.
- QueryAnalyzer.OrderByFields: each ordering clause is taken to answer `getExpr()` and `getDirection()` (src/Service/QueryAnalyzer.php:133). Doctrine's `Expr\OrderBy` declares neither method, so the code as written would stop with an undefined-method error on any ordered query. The model gives the evidently intended result instead. The same assumption is carried by `QueryAnalyzer.HasIndexableOrderBy`, `QueryAnalyzer.Analyze` and `QueryAnalyzer.Recommend` (which runs `analyze()` whenever there is no cursor), and so by the auto paginator and `Helper.PaginateAuto`.
- `SearchAfterPaging.OrderFieldsOf`: each ordering clause is taken to expose an expression and a direction (the `expr` and `asc` properties read at src/Paginator/SearchAfterPaginator.php:244-246). Doctrine's `Expr\OrderBy` declares neither as a public property, so `$order->expr` reads null and passing it to `extractFieldName(string …)` raises a TypeError at line 245. `addOrderBasedCursorCondition` calls `extractOrderFields` first (line 226) and is reached exactly for a multi-field cursor on a non-empty ordering (lines 177-189), so the code as written fails on every such page. The model gives the evidently intended plan instead. The same assumption is carried by `SearchAfterPaging.MultiCursorOrderedPlan`, `SearchAfterPaging.OrderedMultiCursorCalls`, `SearchAfterPaging.SearchAfterPaginator.AddOrderBasedCursorCondition`, `SearchAfterPaging.SearchAfterPaginator.ExtractOrderFields` and `SearchAfterPaging.SearchAfterPage` (for that path), and so by the search-after paginator's `paginateAfter` and the auto paginator when it picks search-after.
- `AutoPaging.AutoPaginator.GetCurrentPaginator` returns the picked paginator object. Changes a caller makes to it through other references are outside the model: the auto paginator's invariant then no longer holds.
- The consultation count in `AutoPaging` counts calls of `recommendStrategy` only. It does not count the count probe that `analyze()` runs inside the analyzer.
- `Helper.QuickPaginate`: the `(int)` casts of the page and the page size are not modelled; both are taken as integers.
- The getters of `PaginationResult` are the fields of the `Model.PaginationResult` datatype.
- The dependency-injection extension, the bundle class and the exception class declarations are not modelled.
- There is no concurrency in the source, and none in the model.

## Findings

| source | as written | input that shows it | evidently intended | confidence | as-written member | corrected member |
|---|---|---|---|---|---|---|
| src/Service/QueryAnalyzer.php:63 | `hasHaving` is `[] !== $queryBuilder->getDQLPart('having')` | any query without a HAVING clause: Doctrine keeps the absent having part as `null`, which is not `[]`, so `hasHaving` is reported true | `hasHaving` is true only when a HAVING condition is present | medium, not executed | QueryAnalyzer.HavingReportedWithoutHavingClause | QueryAnalyzer.AnalyzeCorrected |
