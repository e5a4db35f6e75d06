/** The search-after (keyset) paginator: instead of skipping rows it asks for the
    rows that come after the last one seen, ordering the query and adding a
    "greater than the cursor" condition on a clone. It fetches one row more than a
    page to learn whether more rows follow. */
module SearchAfterPaging {
  import opened Common
  import opened Text
  import opened Query
  import opened Model
  import opened Strategies

  const NoRootAlias: Error := InvalidPagination("Query builder must have a root alias")

  /** What `applyCursorCondition` passes on as the ordering: the builder's ordering
      clauses, or the marker array `['multi_field_cursor' => true]` that the ordering
      inferred from a multi-field cursor returns. */
  datatype Ordering = Items(items: seq<OrderItem>) | Marker

  /** `"{$rootAlias}.{$field}"`. */
  function Qualified(rootAlias: string, field: string): string {
    rootAlias + "." + field
  }

  /** `"{$rootAlias}.{$field} > :cursor_{$field}"`. */
  function After(rootAlias: string, field: string): string {
    rootAlias + "." + field + " > :cursor_" + field
  }

  /** The lexicographic `(created_at, id)` condition. */
  function CreatedAtThenId(rootAlias: string, idField: string): string {
    "(" + rootAlias + ".created_at > :cursor_created_at OR (" + rootAlias + ".created_at = :cursor_created_at AND "
      + rootAlias + "." + idField + " > :cursor_" + idField + "))"
  }

  /** `setupOrderByFields`: one `orderBy` per configured field, ascending. */
  function SetupCalls(rootAlias: string, fields: seq<string>): (calls: seq<Call>)
    ensures |calls| == |fields|
    decreases |fields|
  {
    if fields == [] then []
    else SetupCalls(rootAlias, fields[..|fields| - 1]) + [OrderBy(Qualified(rootAlias, fields[|fields| - 1]), "ASC")]
  }

  /** Call `k` orders by configured field `k`, ascending. */
  lemma {:induction false} SetupCallsAt(rootAlias: string, fields: seq<string>, k: nat)
    requires k < |fields|
    ensures SetupCalls(rootAlias, fields)[k] == OrderBy(Qualified(rootAlias, fields[k]), "ASC")
    decreases |fields|
  {
    var n := |fields| - 1;
    if k < n {
      SetupCallsAt(rootAlias, fields[..n], k);
    }
  }

  /** One more configured field appends its `orderBy`. */
  lemma SetupCallsStep(rootAlias: string, fields: seq<string>, i: nat)
    requires i < |fields|
    ensures SetupCalls(rootAlias, fields[..i + 1])
            == SetupCalls(rootAlias, fields[..i]) + [OrderBy(Qualified(rootAlias, fields[i]), "ASC")]
  {
    assert fields[..i + 1][..i] == fields[..i];
  }

  /** One `orderBy` per cursor field, in the cursor's key order. */
  function EntryOrderCalls(rootAlias: string, entries: seq<(string, Val)>): (calls: seq<Call>)
    ensures |calls| == |entries|
    decreases |entries|
  {
    if entries == [] then []
    else EntryOrderCalls(rootAlias, entries[..|entries| - 1]) + [OrderBy(Qualified(rootAlias, entries[|entries| - 1].0), "ASC")]
  }

  /** Call `k` orders by cursor field `k`, ascending. */
  lemma {:induction false} EntryOrderCallsAt(rootAlias: string, entries: seq<(string, Val)>, k: nat)
    requires k < |entries|
    ensures EntryOrderCalls(rootAlias, entries)[k] == OrderBy(Qualified(rootAlias, entries[k].0), "ASC")
    decreases |entries|
  {
    var n := |entries| - 1;
    if k < n {
      EntryOrderCallsAt(rootAlias, entries[..n], k);
    }
  }

  /** One more cursor field appends its `orderBy`. */
  lemma EntryOrderCallsStep(rootAlias: string, entries: seq<(string, Val)>, i: nat)
    requires i < |entries|
    ensures EntryOrderCalls(rootAlias, entries[..i + 1])
            == EntryOrderCalls(rootAlias, entries[..i]) + [OrderBy(Qualified(rootAlias, entries[i].0), "ASC")]
  {
    assert entries[..i + 1][..i] == entries[..i];
  }

  /** `inferOrderingFromCursor`: a multi-field cursor orders by each of its fields and
      then adds the id; any other cursor orders by the id. */
  function InferCalls(cursor: Val, rootAlias: string, idField: string): (calls: seq<Call>)
    ensures IsMultiField(cursor) ==>
              calls == EntryOrderCalls(rootAlias, cursor.entries) + [AddOrderBy(Qualified(rootAlias, idField), "ASC")]
    ensures !IsMultiField(cursor) ==> calls == [OrderBy(Qualified(rootAlias, idField), "ASC")]
  {
    if IsMultiField(cursor) then
      EntryOrderCalls(rootAlias, cursor.entries) + [AddOrderBy(Qualified(rootAlias, idField), "ASC")]
    else [OrderBy(Qualified(rootAlias, idField), "ASC")]
  }

  /** `ensureDefaultOrdering`: order by the id only when neither the query nor the
      configuration gives an ordering. */
  function DefaultOrderingCalls(d: Descriptor, rootAlias: string, idField: string, orderFields: seq<string>): seq<Call> {
    if d.orderBy == [] && orderFields == [] then [OrderBy(Qualified(rootAlias, idField), "ASC")] else []
  }

  /** The value `addSimpleCursorCondition` binds: the cursor's id when the cursor is
      an array holding a non-null id, else the whole cursor (`?? $lastCursor`). */
  function IdValue(cursor: Val, idField: string): (v: Val)
    ensures Isset(cursor, idField) ==> v == At(cursor, idField)
    ensures !Isset(cursor, idField) ==> v == cursor
  {
    if Isset(cursor, idField) then At(cursor, idField) else cursor
  }

  /** `addSimpleCursorCondition`: `id > :cursor_id`, bound to `IdValue`. */
  function SimpleCalls(cursor: Val, rootAlias: string, idField: string): seq<Call> {
    [AndWhere(After(rootAlias, idField)), SetParameter("cursor_" + idField, IdValue(cursor, idField))]
  }

  /** The two parameters of the `(created_at, id)` condition. */
  function CreatedAtThenIdParams(cursor: Val, idField: string): seq<Call>
    requires Isset(cursor, "created_at") && Isset(cursor, idField)
  {
    [SetParameter("cursor_created_at", At(cursor, "created_at")), SetParameter("cursor_" + idField, At(cursor, idField))]
  }

  /** `addMultiFieldCursorMarkerCondition`: the `(created_at, id)` condition and a
      `1=1` filler, only when the cursor holds both; otherwise nothing at all. */
  function MarkerCalls(cursor: Val, rootAlias: string, idField: string): seq<Call> {
    if Isset(cursor, "created_at") && Isset(cursor, idField) then
      [AndWhere(CreatedAtThenId(rootAlias, idField)), AndWhere("1=1")] + CreatedAtThenIdParams(cursor, idField)
    else []
  }

  /** One `field > :cursor_field` condition and its parameter per cursor entry, in
      the cursor's key order. */
  function EntryConditionCalls(rootAlias: string, entries: seq<(string, Val)>): (calls: seq<Call>)
    ensures |calls| == 2 * |entries|
    decreases |entries|
  {
    if entries == [] then []
    else
      var n := |entries| - 1;
      EntryConditionCalls(rootAlias, entries[..n])
        + [AndWhere(After(rootAlias, entries[n].0)), SetParameter("cursor_" + entries[n].0, entries[n].1)]
  }

  /** Entry `k` of the cursor gives calls `2k` and `2k+1`: its condition, then its
      parameter bound to its value. */
  lemma {:induction false} EntryConditionCallsAt(rootAlias: string, entries: seq<(string, Val)>, k: nat)
    requires k < |entries|
    ensures var calls := EntryConditionCalls(rootAlias, entries);
            calls[2 * k] == AndWhere(After(rootAlias, entries[k].0)) &&
            calls[2 * k + 1] == SetParameter("cursor_" + entries[k].0, entries[k].1)
    decreases |entries|
  {
    var n := |entries| - 1;
    if k < n {
      EntryConditionCallsAt(rootAlias, entries[..n], k);
    }
  }

  /** One more cursor entry appends its condition and its parameter. */
  lemma EntryConditionCallsStep(rootAlias: string, entries: seq<(string, Val)>, i: nat)
    requires i < |entries|
    ensures EntryConditionCalls(rootAlias, entries[..i + 1])
            == EntryConditionCalls(rootAlias, entries[..i])
               + [AndWhere(After(rootAlias, entries[i].0)), SetParameter("cursor_" + entries[i].0, entries[i].1)]
  {
    assert entries[..i + 1][..i] == entries[..i];
  }

  /** `addMultiFieldCursorCondition`: with both `created_at` and the id set, the
      `(created_at, id)` condition, plus `id > :cursor_id` when the ordering has
      more than one clause; otherwise one condition per cursor entry. */
  function MultiFieldCalls(cursor: Val, rootAlias: string, idField: string, orderFieldCount: int): seq<Call>
    requires cursor.Map?
  {
    if Isset(cursor, "created_at") && Isset(cursor, idField) then
      [AndWhere(CreatedAtThenId(rootAlias, idField))]
        + (if orderFieldCount > 1 then [AndWhere(After(rootAlias, idField))] else [])
        + CreatedAtThenIdParams(cursor, idField)
    else EntryConditionCalls(rootAlias, cursor.entries)
  }

  /** `addSingleFieldCursorCondition`: `id > :cursor_id` unless the id value is null. */
  function SingleFieldCalls(cursor: Val, rootAlias: string, idField: string): seq<Call> {
    var value := if cursor.Map? then Lookup(cursor.entries, idField).GetOr(Null) else cursor;
    if value != Null then [AndWhere(After(rootAlias, idField)), SetParameter("cursor_" + idField, value)] else []
  }

  /** `addOrderBasedCursorCondition`: the multi-field condition for a multi-field
      cursor, the single-field one otherwise. */
  function OrderBasedCalls(cursor: Val, rootAlias: string, idField: string, items: seq<OrderItem>): seq<Call> {
    if IsMultiField(cursor) then MultiFieldCalls(cursor, rootAlias, idField, |OrderFieldsOf(items)|)
    else SingleFieldCalls(cursor, rootAlias, idField)
  }

  /** `extractFieldName`: the part after the first dot, or the whole name. */
  function ExtractFieldName(field: string): (name: string)
    ensures IndexOf(field, '.').NotFound? ==> name == field
    ensures IndexOf(field, '.').Found? ==> field == field[..IndexOf(field, '.').index] + "." + name
  {
    match IndexOf(field, '.')
    case NotFound => field
    case Found(k) =>
      assert field == field[..k] + [field[k]] + field[k + 1..];
      field[k + 1..]
  }

  /** A qualified name loses exactly its alias. */
  lemma ExtractFieldNameOfQualified(rootAlias: string, field: string)
    requires '.' !in rootAlias
    ensures ExtractFieldName(Qualified(rootAlias, field)) == field
  {
    var q := Qualified(rootAlias, field);
    assert q[|rootAlias|] == '.';
    assert forall j :: 0 <= j < |rootAlias| ==> q[j] == rootAlias[j];
    var k := IndexOf(q, '.').index;
    assert k == |rootAlias|;
    assert q[k + 1..] == field;
  }

  /** `extractOrderFields`: each clause with its bare field name and direction. This is the
    intended reading: Doctrine's `Expr\OrderBy` has no public `expr` or `asc`, so the code as
    written stops with a TypeError before any condition is added. */
  function OrderFieldsOf(items: seq<OrderItem>): (fields: seq<(string, string, string)>)
    ensures |fields| == |items|
    ensures forall i :: 0 <= i < |items| ==>
              fields[i] == (items[i].expr, ExtractFieldName(items[i].expr), items[i].direction)
  {
    seq(|items|, i requires 0 <= i < |items| => (items[i].expr, ExtractFieldName(items[i].expr), items[i].direction))
  }

  /** Which helper `addSearchAfterCondition` and `addOrderBasedCursorCondition` hand the
      cursor to. */
  datatype Branch = SimpleBranch | MarkerBranch | MultiFieldBranch | SingleFieldBranch

  function BranchOf(cursor: Val, ordering: Ordering): Branch {
    if ordering == Items([]) || (!IsMultiField(cursor) && !ordering.Marker?) then SimpleBranch
    else if ordering.Marker? then MarkerBranch
    else if IsMultiField(cursor) then MultiFieldBranch
    else SingleFieldBranch
  }

  /** `addSingleFieldCursorCondition` is never reached: the order-based path is taken
      only for a multi-field cursor. */
  lemma SingleFieldBranchUnreachable(cursor: Val, ordering: Ordering)
    ensures BranchOf(cursor, ordering) != SingleFieldBranch
    ensures BranchOf(cursor, ordering) == MultiFieldBranch <==>
              IsMultiField(cursor) && ordering.Items? && ordering.items != []
  {
  }

  /** `addSearchAfterCondition`. */
  function ConditionCalls(cursor: Val, rootAlias: string, idField: string, ordering: Ordering): seq<Call> {
    match BranchOf(cursor, ordering)
    case SimpleBranch => SimpleCalls(cursor, rootAlias, idField)
    case MarkerBranch => MarkerCalls(cursor, rootAlias, idField)
    case MultiFieldBranch => OrderBasedCalls(cursor, rootAlias, idField, ordering.items)
    case SingleFieldBranch => OrderBasedCalls(cursor, rootAlias, idField, ordering.items)
  }

  /** `applyCursorCondition` on a clone holding `d`: with no ordering one is inferred
      from the cursor first; then the condition follows. */
  function CursorCalls(d: Descriptor, cursor: Val, rootAlias: string, idField: string): seq<Call> {
    InferStep(d, cursor, rootAlias, idField) + ConditionCalls(cursor, rootAlias, idField, OrderingAfter(d, cursor, rootAlias, idField))
  }

  /** The ordering calls `applyCursorCondition` makes first: inferred ones only when
      the clone has no ordering. */
  function InferStep(d: Descriptor, cursor: Val, rootAlias: string, idField: string): seq<Call> {
    if d.orderBy == [] then InferCalls(cursor, rootAlias, idField) else []
  }

  /** The ordering the condition is chosen by: the clone's own, or else the marker for
      a multi-field cursor, or else the ordering just inferred. */
  function OrderingAfter(d: Descriptor, cursor: Val, rootAlias: string, idField: string): Ordering {
    if d.orderBy != [] then Items(d.orderBy)
    else if IsMultiField(cursor) then Marker
    else Items(Replay(d, InferCalls(cursor, rootAlias, idField)).orderBy)
  }

  /** Every call `paginateAfter` makes on the clone of `qb`, which has a root alias. */
  function PlanCalls(qb: Descriptor, idField: string, orderFields: seq<string>, cursor: Val, pageSize: int): seq<Call>
    requires qb.rootAliases != []
  {
    var rootAlias := qb.rootAliases[0];
    var setup := SetupCalls(rootAlias, orderFields);
    var d := Replay(qb, setup);
    setup
      + (if cursor != Null then CursorCalls(d, cursor, rootAlias, idField)
         else DefaultOrderingCalls(d, rootAlias, idField, orderFields))
      + [SetMaxResults(pageSize + 1)]
  }

  /** The over-fetched rows cut to a page: more rows follow exactly when more than a
      page came back, and then the extra last row is dropped (`array_pop`, which
      leaves an empty array as it is). */
  function Trim(rows: seq<Val>, pageSize: int): (r: (seq<Val>, bool))
    ensures r.1 <==> |rows| > pageSize
    ensures !r.1 ==> r.0 == rows
    ensures r.1 && rows != [] ==> r.0 == rows[..|rows| - 1]
    ensures r.1 && rows == [] ==> r.0 == []
  {
    if |rows| > pageSize then (if rows == [] then [] else rows[..|rows| - 1], true)
    else (rows, false)
  }

  /** With a non-negative page size and a query that honoured the limit of
      `pageSize + 1`, the page is a prefix of the rows and never longer than a page;
      it is a full page whenever more rows follow. */
  lemma {:induction false} TrimFitsPage(rows: seq<Val>, pageSize: int)
    requires pageSize >= 0 && |rows| <= pageSize + 1
    ensures var (items, more) := Trim(rows, pageSize);
            |items| <= pageSize && items <= rows && (more ==> |items| == pageSize)
  {
    var (items, more) := Trim(rows, pageSize);
    if more {
      assert |rows| == pageSize + 1;
      assert items == rows[..pageSize];
    }
  }

  /** The page record built from the fetched rows: always page 1 with an unknown
      (zero) total. */
  function PageOf(rows: seq<Val>, pageSize: int): (r: PaginationResult)
    ensures WellFormed(r)
    ensures r.items == Trim(rows, pageSize).0 && r.hasMore == Trim(rows, pageSize).1
    ensures r.currentPage == 1 && r.pageSize == pageSize && r.total == 0 && r.totalPages == 0
    ensures r.lastItem == LastOf(r.items)
  {
    var (items, hasMore) := Trim(rows, pageSize);
    Make(items, 1, pageSize, 0, 0, hasMore, LastOf(items))
  }

  // Properties of the calls made on the clone

  /** Each `orderBy` replaces the ordering, so after the configured fields only the
      last one is left. */
  lemma {:induction false} SetupOrdering(qb: Descriptor, rootAlias: string, fields: seq<string>)
    ensures fields == [] ==> Replay(qb, SetupCalls(rootAlias, fields)) == qb
    ensures fields != [] ==>
              Replay(qb, SetupCalls(rootAlias, fields)) ==
                qb.(orderBy := [OrderItem(Qualified(rootAlias, fields[|fields| - 1]), "ASC")])
    decreases |fields|
  {
    if fields != [] {
      var n := |fields| - 1;
      SetupOrdering(qb, rootAlias, fields[..n]);
      ReplayAppend(qb, SetupCalls(rootAlias, fields[..n]), [OrderBy(Qualified(rootAlias, fields[n]), "ASC")]);
      assert Replay(Replay(qb, SetupCalls(rootAlias, fields[..n])), [OrderBy(Qualified(rootAlias, fields[n]), "ASC")])
          == Apply(Replay(qb, SetupCalls(rootAlias, fields[..n])), OrderBy(Qualified(rootAlias, fields[n]), "ASC"));
    }
  }

  /** Likewise for the ordering inferred from a multi-field cursor: the last cursor
      field is left, followed by the id. */
  lemma {:induction false} EntryOrdering(d: Descriptor, rootAlias: string, entries: seq<(string, Val)>)
    requires entries != []
    ensures Replay(d, EntryOrderCalls(rootAlias, entries)) ==
              d.(orderBy := [OrderItem(Qualified(rootAlias, entries[|entries| - 1].0), "ASC")])
    decreases |entries|
  {
    var n := |entries| - 1;
    var last := OrderBy(Qualified(rootAlias, entries[n].0), "ASC");
    ReplayAppend(d, EntryOrderCalls(rootAlias, entries[..n]), [last]);
    assert Replay(Replay(d, EntryOrderCalls(rootAlias, entries[..n])), [last])
        == Apply(Replay(d, EntryOrderCalls(rootAlias, entries[..n])), last);
    if n > 0 {
      EntryOrdering(d, rootAlias, entries[..n]);
    }
  }

  /** The ordering a multi-field cursor leaves on a clone with no prior ordering. */
  lemma MultiFieldCursorOrdering(d: Descriptor, cursor: Val, rootAlias: string, idField: string)
    requires IsMultiField(cursor)
    ensures Replay(d, InferCalls(cursor, rootAlias, idField)).orderBy ==
              [OrderItem(Qualified(rootAlias, cursor.entries[|cursor.entries| - 1].0), "ASC"),
               OrderItem(Qualified(rootAlias, idField), "ASC")]
  {
    var order := EntryOrderCalls(rootAlias, cursor.entries);
    var add := AddOrderBy(Qualified(rootAlias, idField), "ASC");
    EntryOrdering(d, rootAlias, cursor.entries);
    ReplayAppend(d, order, [add]);
    assert Replay(Replay(d, order), [add]) == Apply(Replay(d, order), add);
  }

  /** With no cursor: the configured fields, then `id ASC` only when neither the query
      nor the configuration orders, then the limit of one row more than a page. */
  lemma NullCursorPlan(qb: Descriptor, idField: string, orderFields: seq<string>, pageSize: int)
    requires qb.rootAliases != []
    ensures var a := qb.rootAliases[0];
            PlanCalls(qb, idField, orderFields, Null, pageSize) ==
              SetupCalls(a, orderFields)
                + (if qb.orderBy == [] && orderFields == [] then [OrderBy(Qualified(a, idField), "ASC")] else [])
                + [SetMaxResults(pageSize + 1)]
  {
    SetupOrdering(qb, qb.rootAliases[0], orderFields);
  }

  /** A single-valued cursor on an unordered query: order by the id, then
      `id > :cursor_id` bound to the cursor's id (or the whole cursor). */
  lemma SingleCursorPlan(qb: Descriptor, idField: string, cursor: Val, pageSize: int)
    requires qb.rootAliases != [] && qb.orderBy == []
    requires cursor != Null && !IsMultiField(cursor)
    ensures var a := qb.rootAliases[0];
            PlanCalls(qb, idField, [], cursor, pageSize) ==
              [OrderBy(Qualified(a, idField), "ASC"),
               AndWhere(After(a, idField)), SetParameter("cursor_" + idField, IdValue(cursor, idField)),
               SetMaxResults(pageSize + 1)]
  {
    var a := qb.rootAliases[0];
    assert Replay(qb, SetupCalls(a, [])) == qb;
    var inferred := InferCalls(cursor, a, idField);
    assert Replay(qb, inferred) == Apply(qb, inferred[0]) by {
      assert inferred[..0] == [];
    }
  }

  /** A single-valued cursor on an ordered query adds only the id condition after
      the configured ordering. */
  lemma SingleCursorOrderedPlan(qb: Descriptor, idField: string, orderFields: seq<string>, cursor: Val, pageSize: int)
    requires qb.rootAliases != [] && (qb.orderBy != [] || orderFields != [])
    requires cursor != Null && !IsMultiField(cursor)
    ensures var a := qb.rootAliases[0];
            PlanCalls(qb, idField, orderFields, cursor, pageSize) ==
              SetupCalls(a, orderFields)
                + [AndWhere(After(a, idField)), SetParameter("cursor_" + idField, IdValue(cursor, idField))]
                + [SetMaxResults(pageSize + 1)]
  {
    SetupOrdering(qb, qb.rootAliases[0], orderFields);
  }

  /** A multi-field cursor on an unordered query: an `orderBy` per cursor field, then
      `addOrderBy` of the id, then the `(created_at, id)` condition when the cursor
      has both, or no condition at all. */
  lemma MultiCursorPlan(qb: Descriptor, idField: string, cursor: Val, pageSize: int)
    requires qb.rootAliases != [] && qb.orderBy == []
    requires IsMultiField(cursor)
    ensures var a := qb.rootAliases[0];
            PlanCalls(qb, idField, [], cursor, pageSize) ==
              EntryOrderCalls(a, cursor.entries) + [AddOrderBy(Qualified(a, idField), "ASC")]
                + MarkerCalls(cursor, a, idField)
                + [SetMaxResults(pageSize + 1)]
  {
    assert Replay(qb, SetupCalls(qb.rootAliases[0], [])) == qb;
  }

  /** A multi-field cursor on an ordered query: the order-based condition, as intended
      (the clause reads of `OrderFieldsOf` are assumed to succeed). */
  lemma MultiCursorOrderedPlan(qb: Descriptor, idField: string, orderFields: seq<string>, cursor: Val, pageSize: int)
    requires qb.rootAliases != [] && (qb.orderBy != [] || orderFields != [])
    requires IsMultiField(cursor)
    ensures var a := qb.rootAliases[0];
            var ordering := Replay(qb, SetupCalls(a, orderFields)).orderBy;
            ordering != [] &&
            PlanCalls(qb, idField, orderFields, cursor, pageSize) ==
              SetupCalls(a, orderFields)
                + MultiFieldCalls(cursor, a, idField, |ordering|)
                + [SetMaxResults(pageSize + 1)]
  {
    var a := qb.rootAliases[0];
    var d := Replay(qb, SetupCalls(a, orderFields));
    SetupOrdering(qb, a, orderFields);
    assert d.orderBy != [];
    OrderedMultiCursorCalls(d, cursor, a, idField);
  }

  /** On an ordered clone, a multi-field cursor takes the order-based condition. */
  lemma OrderedMultiCursorCalls(d: Descriptor, cursor: Val, a: string, idField: string)
    requires d.orderBy != [] && IsMultiField(cursor)
    ensures CursorCalls(d, cursor, a, idField) == MultiFieldCalls(cursor, a, idField, |d.orderBy|)
  {
    assert BranchOf(cursor, Items(d.orderBy)) == MultiFieldBranch;
    assert InferStep(d, cursor, a, idField) == [] && OrderingAfter(d, cursor, a, idField) == Items(d.orderBy);
    var condition := MultiFieldCalls(cursor, a, idField, |d.orderBy|);
    assert ConditionCalls(cursor, a, idField, Items(d.orderBy)) == condition;
    assert [] + condition == condition;
  }

  /** Resuming from a row that has an id and no `created_at`: its cursor is the id
      alone, and the next page asks for ids greater than it. */
  lemma ResumeAfterIdRow(qb: Descriptor, row: Val, pageSize: int)
    requires qb.rootAliases != [] && qb.orderBy == []
    requires Isset(row, "id") && !Isset(row, "created_at")
    ensures CursorOf(row).Some?
    ensures var a := qb.rootAliases[0];
            PlanCalls(qb, "id", [], Map(CursorOf(row).value), pageSize) ==
              [OrderBy(Qualified(a, "id"), "ASC"), AndWhere(After(a, "id")),
               SetParameter("cursor_id", At(row, "id")), SetMaxResults(pageSize + 1)]
  {
    var cursor := Map(CursorOf(row).value);
    assert cursor.entries == [("id", At(row, "id"))];
    assert Lookup(cursor.entries, "id") == Some(At(row, "id"));
    assert IdValue(cursor, "id") == At(row, "id");
    assert "cursor_" + "id" == "cursor_id";
    SingleCursorPlan(qb, "id", cursor, pageSize);
  }

  lemma CreatedAtOrderCalls(createdAt: Val, id: Val)
    ensures EntryOrderCalls("o", [("created_at", createdAt), ("id", id)])
            == [OrderBy("o.created_at", "ASC"), OrderBy("o.id", "ASC")]
  {
    var entries := [("created_at", createdAt), ("id", id)];
    assert Qualified("o", "created_at") == "o.created_at" && Qualified("o", "id") == "o.id";
    EntryOrderCallsAt("o", entries, 0);
    EntryOrderCallsAt("o", entries, 1);
  }

  lemma CreatedAtMarkerCalls(createdAt: Val, id: Val)
    requires createdAt != Null && id != Null
    ensures MarkerCalls(Map([("created_at", createdAt), ("id", id)]), "o", "id") ==
              [AndWhere(CreatedAtThenId("o", "id")), AndWhere("1=1"),
               SetParameter("cursor_created_at", createdAt), SetParameter("cursor_id", id)]
  {
    var cursor := Map([("created_at", createdAt), ("id", id)]);
    assert Isset(cursor, "created_at") && Isset(cursor, "id");
    assert At(cursor, "created_at") == createdAt && At(cursor, "id") == id;
    assert "cursor_" + "id" == "cursor_id";
  }

  /** The `created_at`/`id` cursor of a previous page, on an unordered query with the
      default id field: the calls the paginator makes, exactly. */
  lemma CreatedAtCursorPlan(qb: Descriptor, createdAt: Val, id: Val, pageSize: int)
    requires qb.rootAliases == ["o"] && qb.orderBy == []
    requires createdAt != Null && id != Null
    ensures PlanCalls(qb, "id", [], Map([("created_at", createdAt), ("id", id)]), pageSize) ==
              [OrderBy("o.created_at", "ASC"), OrderBy("o.id", "ASC"), AddOrderBy("o.id", "ASC"),
               AndWhere(CreatedAtThenId("o", "id")),
               AndWhere("1=1"),
               SetParameter("cursor_created_at", createdAt), SetParameter("cursor_id", id),
               SetMaxResults(pageSize + 1)]
  {
    var cursor := Map([("created_at", createdAt), ("id", id)]);
    MultiCursorPlan(qb, "id", cursor, pageSize);
    CreatedAtOrderCalls(createdAt, id);
    CreatedAtMarkerCalls(createdAt, id);
    assert Qualified("o", "id") == "o.id";
  }

  /** The outcome of `paginateAfter($lastCursor, $pageSize)` for a paginator in the
      given configuration. */
  function SearchAfterPage(qb: Descriptor, idField: string, orderFields: seq<string>,
                           cursor: Val, pageSize: int, env: Env): Outcome<PaginationResult> {
    if qb.rootAliases == [] then Err(NoRootAlias)
    else Ok(PageOf(env.result(Replay(qb, PlanCalls(qb, idField, orderFields, cursor, pageSize))), pageSize))
  }

  class SearchAfterPaginator {
    var queryBuilder: Descriptor
    var idField: string
    var orderFields: seq<string>

    constructor (qb: Descriptor, orderFields: seq<string>)
      ensures queryBuilder == qb && this.orderFields == orderFields && idField == "id"
    {
      queryBuilder := qb;
      idField := "id";
      this.orderFields := orderFields;
    }

    method GetQueryBuilder() returns (qb: Descriptor)
      ensures qb == queryBuilder
    {
      qb := queryBuilder;
    }

    /** `setQueryBuilder()`: there is no cache to clear. */
    method SetQueryBuilder(qb: Descriptor)
      modifies this
      ensures queryBuilder == qb && idField == old(idField) && orderFields == old(orderFields)
    {
      queryBuilder := qb;
    }

    /** `getStrategy()`. */
    function GetStrategy(): (name: string)
      ensures KindOf(name) == Some(SearchAfterKind)
    {
      SearchAfter
    }

    /** `setIdField()`. */
    method SetIdField(idField: string)
      modifies this
      ensures this.idField == idField && queryBuilder == old(queryBuilder) && orderFields == old(orderFields)
    {
      this.idField := idField;
    }

    /** `paginate($page, $pageSize)`: page numbers are not supported, so this is the
        first page after no cursor, whatever `page` is. */
    method Paginate(page: int, pageSize: int, env: Env) returns (r: Outcome<PaginationResult>, calls: seq<Call>)
      ensures queryBuilder.rootAliases == [] ==> r == Err(NoRootAlias) && calls == []
      ensures queryBuilder.rootAliases != [] ==> calls == PlanCalls(queryBuilder, idField, orderFields, Null, pageSize)
      ensures r == SearchAfterPage(queryBuilder, idField, orderFields, Null, pageSize, env)
    {
      r, calls := PaginateAfter(Null, pageSize, env);
    }

    /** `paginateAfter($lastCursor, $pageSize)`: on a clone, order and constrain by the
        cursor, fetch one row more than a page and cut it off. A query with no root
        alias fails before anything runs. The paginator itself is not changed. */
    method PaginateAfter(lastCursor: Val, pageSize: int, env: Env) returns (r: Outcome<PaginationResult>, calls: seq<Call>)
      ensures queryBuilder.rootAliases == [] ==> r == Err(NoRootAlias) && calls == []
      ensures queryBuilder.rootAliases != [] ==> calls == PlanCalls(queryBuilder, idField, orderFields, lastCursor, pageSize)
      ensures r == SearchAfterPage(queryBuilder, idField, orderFields, lastCursor, pageSize, env)
    {
      var qb := new Builder(queryBuilder);
      var alias := ValidateAndGetRootAlias(qb.desc);
      if alias.Err? {
        return Err(alias.error), [];
      }
      Plan(qb, lastCursor, pageSize, alias.value);
      var page := Fetch(qb.desc, pageSize, env);
      r, calls := Ok(page), qb.log;
    }

    /** Lines 69-77 of `paginateAfter()`: the ordering, the cursor condition and the
        limit, on the fresh clone. */
    method Plan(qb: Builder, lastCursor: Val, pageSize: int, rootAlias: string)
      requires qb.Valid() && qb.log == [] && qb.origin.rootAliases != [] && rootAlias == qb.origin.rootAliases[0]
      modifies qb
      ensures qb.Valid() && qb.log == PlanCalls(qb.origin, idField, orderFields, lastCursor, pageSize)
    {
      SetupOrderByFields(qb, rootAlias);
      ghost var setup := qb.log;
      assert setup == SetupCalls(rootAlias, orderFields);
      if lastCursor != Null {
        ApplyCursorCondition(qb, lastCursor, rootAlias);
      } else {
        EnsureDefaultOrdering(qb, rootAlias);
      }
      qb.Perform(SetMaxResults(pageSize + 1));
    }

    /** Lines 78-95 of `paginateAfter()`: fetch, cut to a page, build the record. */
    method Fetch(d: Descriptor, pageSize: int, env: Env) returns (page: PaginationResult)
      ensures page == PageOf(env.result(d), pageSize)
    {
      var items := env.result(d);
      var hasMore := |items| > pageSize;
      if hasMore && items != [] {
        items := items[..|items| - 1];
      }
      var lastItem := if items != [] then items[|items| - 1] else Null;
      page := Make(items, 1, pageSize, 0, 0, hasMore, lastItem);
    }

    /** `validateAndGetRootAlias()`: the first root alias, or the error. */
    method ValidateAndGetRootAlias(qb: Descriptor) returns (r: Outcome<string>)
      ensures qb.rootAliases == [] <==> r == Err(NoRootAlias)
      ensures qb.rootAliases != [] ==> r == Ok(qb.rootAliases[0])
    {
      if qb.rootAliases == [] {
        return Err(NoRootAlias);
      }
      return Ok(qb.rootAliases[0]);
    }

    /** `setupOrderByFields()`. */
    method SetupOrderByFields(qb: Builder, rootAlias: string)
      requires qb.Valid()
      modifies qb
      ensures qb.Valid() && qb.log == old(qb.log) + SetupCalls(rootAlias, orderFields)
    {
      if orderFields != [] {
        var i := 0;
        while i < |orderFields|
          invariant 0 <= i <= |orderFields|
          invariant qb.Valid() && qb.log == old(qb.log) + SetupCalls(rootAlias, orderFields[..i])
        {
          ghost var before := qb.log;
          qb.Perform(OrderBy(Qualified(rootAlias, orderFields[i]), "ASC"));
          assert qb.log == before + [OrderBy(Qualified(rootAlias, orderFields[i]), "ASC")];
          SetupCallsStep(rootAlias, orderFields, i);
          i := i + 1;
        }
        assert orderFields[..i] == orderFields;
      }
    }

    /** `applyCursorCondition()`. */
    method ApplyCursorCondition(qb: Builder, lastCursor: Val, rootAlias: string)
      requires qb.Valid()
      modifies qb
      ensures qb.Valid() && qb.log == old(qb.log) + CursorCalls(old(qb.desc), lastCursor, rootAlias, idField)
    {
      ghost var d0, log0 := qb.desc, qb.log;
      var hasMultiFieldCursor := IsMultiField(lastCursor);
      var ordering := Items(qb.desc.orderBy);
      if qb.desc.orderBy == [] {
        ordering := InferOrderingFromCursor(qb, lastCursor, rootAlias, hasMultiFieldCursor);
      } else {
        assert qb.log == log0 + [];
      }
      assert ordering == OrderingAfter(d0, lastCursor, rootAlias, idField);
      ghost var inferred := InferStep(d0, lastCursor, rootAlias, idField);
      assert qb.log == log0 + inferred;
      AddSearchAfterCondition(qb, lastCursor, rootAlias, ordering);
      ConcatAssoc(log0, inferred, ConditionCalls(lastCursor, rootAlias, idField, ordering));
    }

    /** `inferOrderingFromCursor()`. */
    method InferOrderingFromCursor(qb: Builder, lastCursor: Val, rootAlias: string, hasMultiFieldCursor: bool)
      returns (ordering: Ordering)
      requires qb.Valid() && hasMultiFieldCursor == IsMultiField(lastCursor)
      modifies qb
      ensures qb.Valid() && qb.log == old(qb.log) + InferCalls(lastCursor, rootAlias, idField)
      ensures qb.desc == Replay(old(qb.desc), InferCalls(lastCursor, rootAlias, idField))
      ensures ordering == if hasMultiFieldCursor then Marker else Items(qb.desc.orderBy)
    {
      ghost var start := qb.log;
      if hasMultiFieldCursor {
        var entries := lastCursor.entries;
        var i := 0;
        while i < |entries|
          invariant 0 <= i <= |entries|
          invariant qb.Valid() && qb.log == start + EntryOrderCalls(rootAlias, entries[..i])
        {
          qb.Perform(OrderBy(Qualified(rootAlias, entries[i].0), "ASC"));
          EntryOrderCallsStep(rootAlias, entries, i);
          ConcatAssoc(start, EntryOrderCalls(rootAlias, entries[..i]), [OrderBy(Qualified(rootAlias, entries[i].0), "ASC")]);
          i := i + 1;
        }
        assert entries[..i] == entries;
        qb.Perform(AddOrderBy(Qualified(rootAlias, idField), "ASC"));
        ConcatAssoc(start, EntryOrderCalls(rootAlias, entries), [AddOrderBy(Qualified(rootAlias, idField), "ASC")]);
        ordering := Marker;
      } else {
        qb.Perform(OrderBy(Qualified(rootAlias, idField), "ASC"));
        ordering := Items(qb.desc.orderBy);
      }
      ReplayAppend(qb.origin, start, InferCalls(lastCursor, rootAlias, idField));
    }

    /** `ensureDefaultOrdering()`. */
    method EnsureDefaultOrdering(qb: Builder, rootAlias: string)
      requires qb.Valid()
      modifies qb
      ensures qb.Valid() && qb.log == old(qb.log) + DefaultOrderingCalls(old(qb.desc), rootAlias, idField, orderFields)
    {
      if qb.desc.orderBy == [] && orderFields == [] {
        qb.Perform(OrderBy(Qualified(rootAlias, idField), "ASC"));
      }
    }

    /** `addSearchAfterCondition()`. */
    method AddSearchAfterCondition(qb: Builder, lastCursor: Val, rootAlias: string, ordering: Ordering)
      requires qb.Valid()
      modifies qb
      ensures qb.Valid() && qb.log == old(qb.log) + ConditionCalls(lastCursor, rootAlias, idField, ordering)
    {
      var hasMultiFieldCursor := IsMultiField(lastCursor);
      var isMultiFieldCursorMarker := ordering.Marker?;
      if ordering == Items([]) || (!hasMultiFieldCursor && !isMultiFieldCursorMarker) {
        AddSimpleCursorCondition(qb, lastCursor, rootAlias);
        return;
      }
      if isMultiFieldCursorMarker {
        AddMultiFieldCursorMarkerCondition(qb, lastCursor, rootAlias);
        return;
      }
      AddOrderBasedCursorCondition(qb, lastCursor, rootAlias, ordering.items);
    }

    /** `addSimpleCursorCondition()`. */
    method AddSimpleCursorCondition(qb: Builder, lastCursor: Val, rootAlias: string)
      requires qb.Valid()
      modifies qb
      ensures qb.Valid() && qb.log == old(qb.log) + SimpleCalls(lastCursor, rootAlias, idField)
    {
      var idValue := if Isset(lastCursor, idField) then At(lastCursor, idField) else lastCursor;
      qb.Perform(AndWhere(After(rootAlias, idField)));
      qb.Perform(SetParameter("cursor_" + idField, idValue));
    }

    /** `addMultiFieldCursorMarkerCondition()`. */
    method AddMultiFieldCursorMarkerCondition(qb: Builder, lastCursor: Val, rootAlias: string)
      requires qb.Valid()
      modifies qb
      ensures qb.Valid() && qb.log == old(qb.log) + MarkerCalls(lastCursor, rootAlias, idField)
    {
      var hasCreatedAt := Isset(lastCursor, "created_at");
      var hasId := Isset(lastCursor, idField);
      if hasCreatedAt && hasId {
        ghost var start := qb.log;
        qb.Perform(AndWhere(CreatedAtThenId(rootAlias, idField)));
        qb.Perform(AndWhere("1=1"));
        ConcatAssoc(start, [AndWhere(CreatedAtThenId(rootAlias, idField)), AndWhere("1=1")],
                    CreatedAtThenIdParams(lastCursor, idField));
        qb.Perform(SetParameter("cursor_created_at", At(lastCursor, "created_at")));
        qb.Perform(SetParameter("cursor_" + idField, At(lastCursor, idField)));
      }
    }

    /** `addOrderBasedCursorCondition()`, with the intended reading of the ordering clauses. */
    method AddOrderBasedCursorCondition(qb: Builder, lastCursor: Val, rootAlias: string, orderBy: seq<OrderItem>)
      requires qb.Valid()
      modifies qb
      ensures qb.Valid() && qb.log == old(qb.log) + OrderBasedCalls(lastCursor, rootAlias, idField, orderBy)
    {
      var orderFields := ExtractOrderFields(orderBy);
      if lastCursor.Map? && |lastCursor.entries| > 1 {
        AddMultiFieldCursorCondition(qb, lastCursor, rootAlias, orderFields);
      } else {
        AddSingleFieldCursorCondition(qb, lastCursor, rootAlias);
      }
    }

    /** `extractOrderFields()`. */
    method ExtractOrderFields(orderBy: seq<OrderItem>) returns (fields: seq<(string, string, string)>)
      ensures fields == OrderFieldsOf(orderBy)
    {
      fields := [];
      for i := 0 to |orderBy|
        invariant fields == OrderFieldsOf(orderBy[..i])
      {
        var field := orderBy[i].expr;
        fields := fields + [(field, ExtractFieldName(field), orderBy[i].direction)];
      }
      assert orderBy[..|orderBy|] == orderBy;
    }

    /** `addMultiFieldCursorCondition()`. */
    method AddMultiFieldCursorCondition(qb: Builder, lastCursor: Val, rootAlias: string,
                                        orderFields: seq<(string, string, string)>)
      requires qb.Valid() && lastCursor.Map?
      modifies qb
      ensures qb.Valid() && qb.log == old(qb.log) + MultiFieldCalls(lastCursor, rootAlias, idField, |orderFields|)
    {
      var hasCreatedAt := Isset(lastCursor, "created_at");
      var hasId := Isset(lastCursor, idField);
      if hasCreatedAt && hasId {
        ghost var start := qb.log;
        ghost var conditions := [AndWhere(CreatedAtThenId(rootAlias, idField))]
          + (if |orderFields| > 1 then [AndWhere(After(rootAlias, idField))] else []);
        qb.Perform(AndWhere(CreatedAtThenId(rootAlias, idField)));
        if |orderFields| > 1 {
          qb.Perform(AndWhere(After(rootAlias, idField)));
        }
        assert qb.log == start + conditions;
        qb.Perform(SetParameter("cursor_created_at", At(lastCursor, "created_at")));
        qb.Perform(SetParameter("cursor_" + idField, At(lastCursor, idField)));
        ghost var params := CreatedAtThenIdParams(lastCursor, idField);
        assert qb.log == start + conditions + params;
        ConcatAssoc(start, conditions, params);
        assert MultiFieldCalls(lastCursor, rootAlias, idField, |orderFields|) == conditions + params;
      } else {
        AddEntryConditions(qb, rootAlias, lastCursor.entries);
        assert MultiFieldCalls(lastCursor, rootAlias, idField, |orderFields|) == EntryConditionCalls(rootAlias, lastCursor.entries);
      }
    }

    /** The `foreach ($lastCursor as $fieldName => $value)` loop of
        `addMultiFieldCursorCondition()`. */
    method AddEntryConditions(qb: Builder, rootAlias: string, entries: seq<(string, Val)>)
      requires qb.Valid()
      modifies qb
      ensures qb.Valid() && qb.log == old(qb.log) + EntryConditionCalls(rootAlias, entries)
    {
      ghost var start := qb.log;
      for i := 0 to |entries|
        invariant qb.Valid() && qb.log == start + EntryConditionCalls(rootAlias, entries[..i])
      {
        var fieldName := entries[i].0;
        var value := entries[i].1;
        ghost var before := qb.log;
        qb.Perform(AndWhere(After(rootAlias, fieldName)));
        qb.Perform(SetParameter("cursor_" + fieldName, value));
        assert qb.log == before + [AndWhere(After(rootAlias, fieldName)), SetParameter("cursor_" + fieldName, value)];
        EntryConditionCallsStep(rootAlias, entries, i);
      }
      assert entries[..|entries|] == entries;
    }

    /** `addSingleFieldCursorCondition()`. */
    method AddSingleFieldCursorCondition(qb: Builder, lastCursor: Val, rootAlias: string)
      requires qb.Valid()
      modifies qb
      ensures qb.Valid() && qb.log == old(qb.log) + SingleFieldCalls(lastCursor, rootAlias, idField)
    {
      var fieldName := idField;
      var value := if lastCursor.Map? then Lookup(lastCursor.entries, fieldName).GetOr(Null) else lastCursor;
      if value != Null {
        qb.Perform(AndWhere(After(rootAlias, fieldName)));
        qb.Perform(SetParameter("cursor_" + fieldName, value));
      }
    }
  }
}
