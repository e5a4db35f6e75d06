/** The query analyzer: reads features off a query descriptor and recommends a
    pagination strategy from them. It holds no state. */
module QueryAnalyzer {
  import opened Common
  import opened Text
  import opened Query
  import opened Strategies

  /** The offset below which plain LIMIT/OFFSET is recommended. */
  const SmallOffset: int := 10000
  /** The offset from which keyset pagination is considered. */
  const LargeOffset: int := 1000000
  /** The row estimate used when the count probe cannot be run. */
  const DefaultRowEstimate: int := 1000000

  /** `hasJoins`: some root alias has a non-empty list of joins (the first one found
      ends the search). */
  function HasJoins(joins: seq<(string, seq<string>)>): (r: bool)
    ensures r <==> exists i :: 0 <= i < |joins| && joins[i].1 != []
  {
    if joins == [] then false
    else if joins[0].1 != [] then true
    else HasJoins(joins[1..])
  }

  /** The fragments whose presence, in any letter case, marks a WHERE clause as one
      that may scan the whole table. */
  const ComplexPatterns: seq<string> :=
    ["LIKE '%", "OR ", "NOT LIKE", "!=", "<>", "IN (SELECT", "EXISTS (SELECT"]

  /** Some pattern of `patterns` occurs in `text`, ignoring case, searched in order. */
  function AnyPatternIn(text: string, patterns: seq<string>): (r: bool)
    ensures r <==> exists i :: 0 <= i < |patterns| && ContainsIgnoringCase(text, patterns[i])
  {
    if patterns == [] then false
    else if ContainsIgnoringCase(text, patterns[0]) then true
    else AnyPatternIn(text, patterns[1..])
  }

  /** `hasComplexConditions`: no WHERE part (null) or one still held as an array is
      not complex; an expression is complex when its text holds a complex pattern. */
  function HasComplexConditions(where: Part): (r: bool)
    ensures where.Absent? || where.List? ==> !r
    ensures where.Expr? ==>
              (r <==> exists i :: 0 <= i < |ComplexPatterns| && ContainsIgnoringCase(where.text, ComplexPatterns[i]))
  {
    match where
    case Expr(text) => AnyPatternIn(text, ComplexPatterns)
    case _ => false
  }

  /** `$fields[$key] = $value` on a PHP array: an existing key keeps its place and
      takes the new value; a new key goes to the end. */
  function Put(m: seq<(string, string)>, key: string, value: string): (r: seq<(string, string)>)
    ensures Keys(r) == Keys(m) + {key}
    ensures forall i :: 0 <= i < |r| && r[i].0 != key ==> r[i] in m
    ensures (key, value) in r
    ensures UniqueKeys(m) ==> UniqueKeys(r)
  {
    if m == [] then [(key, value)]
    else if m[0].0 == key then
      var r := [(key, value)] + m[1..];
      assert r[1..] == m[1..];
      r
    else
      var rest := Put(m[1..], key, value);
      var r := [m[0]] + rest;
      assert r[1..] == rest;
      r
  }

  /** The keys of an array, as a set. */
  ghost function Keys(m: seq<(string, string)>): set<string> {
    if m == [] then {} else {m[0].0} + Keys(m[1..])
  }

  /** No key occurs twice, as in every PHP array. */
  ghost predicate UniqueKeys(m: seq<(string, string)>) {
    m == [] || (m[0].0 !in Keys(m[1..]) && UniqueKeys(m[1..]))
  }

  lemma {:induction false} KeysIff(m: seq<(string, string)>, k: string)
    ensures k in Keys(m) <==> exists i :: 0 <= i < |m| && m[i].0 == k
  {
    if m != [] {
      KeysIff(m[1..], k);
      if k in Keys(m[1..]) {
        var i :| 0 <= i < |m[1..]| && m[1..][i].0 == k;
        assert m[i + 1].0 == k;
      }
      forall i | 0 <= i < |m| && m[i].0 == k && i > 0 ensures k in Keys(m[1..]) {
        assert m[1..][i - 1].0 == k;
      }
    }
  }

  /** The expressions of an ordering, as a set. */
  ghost function Exprs(orderBy: seq<OrderItem>): set<string>
    decreases |orderBy|
  {
    if orderBy == [] then {} else Exprs(orderBy[..|orderBy| - 1]) + {orderBy[|orderBy| - 1].expr}
  }

  lemma {:induction false} ExprsIff(orderBy: seq<OrderItem>, k: string)
    ensures k in Exprs(orderBy) <==> exists i :: 0 <= i < |orderBy| && orderBy[i].expr == k
    decreases |orderBy|
  {
    if orderBy != [] {
      var n := |orderBy| - 1;
      ExprsIff(orderBy[..n], k);
      if k in Exprs(orderBy[..n]) {
        var i :| 0 <= i < n && orderBy[..n][i].expr == k;
        assert orderBy[i].expr == k;
      }
      forall i | 0 <= i < n && orderBy[i].expr == k ensures k in Exprs(orderBy[..n]) {
        assert orderBy[..n][i].expr == k;
      }
    }
  }

  /** `getOrderByFields`: the ordering folded into an expression => direction array. */
  function OrderByFields(orderBy: seq<OrderItem>): (r: seq<(string, string)>)
    ensures UniqueKeys(r)
    ensures Keys(r) == Exprs(orderBy)
    decreases |orderBy|
  {
    if orderBy == [] then []
    else
      var last := orderBy[|orderBy| - 1];
      Put(OrderByFields(orderBy[..|orderBy| - 1]), last.expr, last.direction)
  }

  /** The direction recorded for an expression is the one its latest ordering gave. */
  lemma {:induction false} OrderByFieldsLatestWins(orderBy: seq<OrderItem>, k: int)
    requires 0 <= k < |orderBy|
    requires forall j :: k < j < |orderBy| ==> orderBy[j].expr != orderBy[k].expr
    ensures (orderBy[k].expr, orderBy[k].direction) in OrderByFields(orderBy)
    decreases |orderBy|
  {
    var n := |orderBy| - 1;
    var prefix := orderBy[..n];
    var m := OrderByFields(prefix);
    if k < n {
      OrderByFieldsLatestWins(prefix, k);
      var i :| 0 <= i < |m| && m[i] == (orderBy[k].expr, orderBy[k].direction);
      PutKeeps(m, orderBy[n].expr, orderBy[n].direction, i);
    }
  }

  lemma {:induction false} PutKeeps(m: seq<(string, string)>, key: string, value: string, i: int)
    requires 0 <= i < |m| && m[i].0 != key
    ensures m[i] in Put(m, key, value)
    decreases |m|
  {
    if m[0].0 != key && i > 0 {
      PutKeeps(m[1..], key, value, i - 1);
    }
  }

  /** Some key of `fields` contains `fragment` (`str_contains`), searched in order. */
  function AnyKeyContains(fields: seq<(string, string)>, fragment: string): (r: bool)
    ensures r <==> exists i :: 0 <= i < |fields| && Contains(fields[i].0, fragment)
  {
    if fields == [] then false
    else if Contains(fields[0].0, fragment) then true
    else AnyKeyContains(fields[1..], fragment)
  }

  /** `hasIndexableOrderBy`: there is an ordering, and one of its expressions contains
      `.id` anywhere (a substring test, so `o.identifier` passes too). */
  function HasIndexableOrderBy(orderBy: seq<OrderItem>): (r: bool)
    ensures r <==> exists i :: 0 <= i < |orderBy| && Contains(orderBy[i].expr, ".id")
  {
    var fields := OrderByFields(orderBy);
    SameKeys(orderBy, fields);
    if fields == [] then false else AnyKeyContains(fields, ".id")
  }

  /** The array's keys are exactly the ordering's expressions, index by index. */
  lemma SameKeys(orderBy: seq<OrderItem>, fields: seq<(string, string)>)
    requires Keys(fields) == Exprs(orderBy)
    ensures forall i :: 0 <= i < |orderBy| ==> exists j :: 0 <= j < |fields| && fields[j].0 == orderBy[i].expr
    ensures forall j :: 0 <= j < |fields| ==> exists i :: 0 <= i < |orderBy| && orderBy[i].expr == fields[j].0
  {
    forall i | 0 <= i < |orderBy|
      ensures exists j :: 0 <= j < |fields| && fields[j].0 == orderBy[i].expr
    {
      ExprsIff(orderBy, orderBy[i].expr);
      KeysIff(fields, orderBy[i].expr);
    }
    forall j | 0 <= j < |fields|
      ensures exists i :: 0 <= i < |orderBy| && orderBy[i].expr == fields[j].0
    {
      ExprsIff(orderBy, fields[j].0);
      KeysIff(fields, fields[j].0);
    }
  }

  /** A substring test, not a suffix test: `o.identifier` counts as indexable. */
  lemma IdentifierCountsAsIndexable()
    ensures HasIndexableOrderBy([OrderItem("o.identifier", "ASC")])
  {
    var s := "o.identifier";
    assert OccursAt(s, ".id", 1) by {
      assert s[1..4] == ".id";
    }
    ContainsIff(s, ".id");
  }

  /** `hasDistinct`: some select expression contains `DISTINCT`, in any letter case. */
  function HasDistinct(select: seq<string>): (r: bool)
    ensures r <==> exists i :: 0 <= i < |select| && ContainsIgnoringCase(select[i], "DISTINCT")
  {
    if select == [] then false
    else if ContainsIgnoringCase(select[0], "DISTINCT") then true
    else HasDistinct(select[1..])
  }

  /** `hasLimit`: a maximum number of results is set. */
  function HasLimit(qb: Descriptor): (r: bool)
    ensures r <==> qb.maxResults != None
  {
    qb.maxResults.Some?
  }

  /** The count probe of `estimateRowCount`: a clone with the selection and ordering
      reset and `COUNT(alias)` selected; none when the query has no root alias. */
  function CountProbe(qb: Descriptor): (r: Option<Descriptor>)
    ensures r.None? <==> qb.rootAliases == []
    ensures r.Some? ==>
              r.value == qb.(select := ["COUNT(" + qb.rootAliases[0] + ")"], orderBy := [])
  {
    if qb.rootAliases == [] then None
    else Some(Apply(Apply(Apply(qb, ResetSelect), ResetOrderBy), Select("COUNT(" + qb.rootAliases[0] + ")")))
  }

  /** `estimateRowCount`: the probe's count, or the default estimate when there is no
      root alias or the probe fails. A failure never escapes. */
  function EstimateRowCount(qb: Descriptor, env: Env): (n: int)
    ensures qb.rootAliases == [] ==> n == DefaultRowEstimate
    ensures qb.rootAliases != [] && env.probe(CountProbe(qb).value).None? ==> n == DefaultRowEstimate
    ensures qb.rootAliases != [] && env.probe(CountProbe(qb).value).Some? ==>
              n == env.probe(CountProbe(qb).value).value
  {
    match CountProbe(qb)
    case None => DefaultRowEstimate
    case Some(countQb) => env.probe(countQb).GetOr(DefaultRowEstimate)
  }

  /** The result of `analyze()`. */
  datatype Features = Features(
    hasJoins: bool,
    hasComplexConditions: bool,
    orderByFields: seq<(string, string)>,
    hasIndexableOrderBy: bool,
    estimatedRowCount: int,
    hasWhereClause: bool,
    hasGroupBy: bool,
    hasHaving: bool,
    hasDistinct: bool,
    hasLimit: bool)

  /** The `hasHaving` test as written: a having part that is not the empty array.
      Doctrine keeps an absent HAVING clause as null, so this holds for every query. */
  function HasHavingAsWritten(qb: Descriptor): (r: bool)
    ensures r <==> qb.having != List([])
  {
    qb.having != List([])
  }


  /** The corrected test: a HAVING condition is present. */
  function HasHaving(qb: Descriptor): (r: bool)
    ensures qb.having.Absent? ==> !r
    ensures qb.having.Expr? ==> r
    ensures qb.having.List? ==> (r <==> qb.having.fragments != [])
  {
    match qb.having
    case Absent => false
    case List(fragments) => fragments != []
    case Expr(_) => true
  }

  /** Once a HAVING part is present in any form, the corrected test agrees with the
      written one. */
  lemma HasHavingAgreesWhenPresent(qb: Descriptor)
    requires !qb.having.Absent?
    ensures HasHaving(qb) == HasHavingAsWritten(qb)
  {
  }

  /** `analyze()`, as written: `hasHaving` is the written test. */
  function Analyze(qb: Descriptor, env: Env): (f: Features)
    ensures f.hasJoins == HasJoins(qb.joins)
    ensures f.hasComplexConditions == HasComplexConditions(qb.where)
    ensures f.hasIndexableOrderBy == HasIndexableOrderBy(qb.orderBy)
    ensures f.estimatedRowCount == EstimateRowCount(qb, env)
    ensures f.hasWhereClause <==> !qb.where.Absent?
    ensures f.hasGroupBy <==> qb.groupBy != []
    ensures f.hasHaving <==> qb.having != List([])
    ensures f.hasDistinct == HasDistinct(qb.select)
    ensures f.hasLimit == HasLimit(qb)
    ensures UniqueKeys(f.orderByFields)
    ensures Keys(f.orderByFields) == Exprs(qb.orderBy)
  {
    Features(
      HasJoins(qb.joins),
      HasComplexConditions(qb.where),
      OrderByFields(qb.orderBy),
      HasIndexableOrderBy(qb.orderBy),
      EstimateRowCount(qb, env),
      !qb.where.Absent?,
      qb.groupBy != [],
      HasHavingAsWritten(qb),
      HasDistinct(qb.select),
      HasLimit(qb))
  }

  /** The report `analyze()` evidently intends: the same, with the corrected `hasHaving`. */
  function AnalyzeCorrected(qb: Descriptor, env: Env): (f: Features)
    ensures f.hasHaving <==> HasHaving(qb)
    ensures qb.having.Absent? ==> !f.hasHaving
    ensures !qb.having.Absent? ==> f == Analyze(qb, env)
    ensures f.(hasHaving := Analyze(qb, env).hasHaving) == Analyze(qb, env)
  {
    Analyze(qb, env).(hasHaving := HasHaving(qb))
  }

  /** A query without a HAVING clause is reported by `analyze()` as having one; the
      corrected report says it has none, and differs from the written one in that
      field alone. */
  lemma HavingReportedWithoutHavingClause(qb: Descriptor, env: Env)
    requires qb.having == Absent
    ensures HasHavingAsWritten(qb) && !HasHaving(qb)
    ensures Analyze(qb, env).hasHaving && !AnalyzeCorrected(qb, env).hasHaving
    ensures Analyze(qb, env) != AnalyzeCorrected(qb, env)
  {
  }

  /** `recommendStrategy(qb, offset, lastCursor)`. A cursor decides alone; otherwise
      the offset picks a band and the query's features pick within it. */
  function Recommend(qb: Descriptor, offset: int, lastCursor: Option<string>): (r: string)
    ensures lastCursor.Some? ==> r == SearchAfter
    ensures lastCursor.None? && offset < SmallOffset ==> r == Offset
    ensures lastCursor.None? && SmallOffset <= offset < LargeOffset ==>
              (r == SubQuery <==> HasJoins(qb.joins) || HasComplexConditions(qb.where)) &&
              (r == SubQuery || r == Offset)
    ensures lastCursor.None? && LargeOffset <= offset ==>
              (r == SearchAfter <==> HasIndexableOrderBy(qb.orderBy)) &&
              (r == SearchAfter || r == SubQuery)
    ensures KindOf(r).Some?
  {
    if lastCursor.Some? then SearchAfter
    else if offset < SmallOffset then Offset
    else if offset < LargeOffset then
      if HasJoins(qb.joins) || HasComplexConditions(qb.where) then SubQuery else Offset
    else if HasIndexableOrderBy(qb.orderBy) then SearchAfter
    else SubQuery
  }

  /** The recommendation depends only on the three features `analyze()` reports, so it
      is the same whatever the count probe returns. */
  lemma {:induction false} RecommendFromFeatures(qb: Descriptor, offset: int, env: Env)
    ensures var f := Analyze(qb, env);
            Recommend(qb, offset, None) ==
              if offset < SmallOffset then Offset
              else if offset < LargeOffset then
                (if f.hasJoins || f.hasComplexConditions then SubQuery else Offset)
              else if f.hasIndexableOrderBy then SearchAfter else SubQuery
  {
  }

  /** The recommendation is never `auto`, so resolving it again always ends. */
  lemma RecommendNeverAuto(qb: Descriptor, offset: int, lastCursor: Option<string>)
    ensures Recommend(qb, offset, lastCursor) != Auto
    ensures IsStrategy(Recommend(qb, offset, lastCursor))
  {
    var r := Recommend(qb, offset, lastCursor);
    assert KindOf(r).Some?;
  }
}
