/** The paginator factory: a strategy name in, a new paginator over the given query out. */
module Factory {
  import opened Common
  import opened Query
  import opened Strategies
  import opened OffsetPaging
  import opened SubQueryPaging
  import opened SearchAfterPaging
  import opened Paginators
  import opened AutoPaging

  /** The concrete kind `create($queryBuilder, $strategy)` builds, or none for the auto
      paginator: no name, `auto` and every unknown name give the auto paginator. */
  function CreatedKind(strategy: Option<string>): (k: Option<Kind>)
    ensures k.Some? <==> strategy.Some? && IsStrategy(strategy.value) && strategy.value != Auto
    ensures k.Some? ==> KindName(k.value) == strategy.value
  {
    if strategy.None? then None else KindOf(strategy.value)
  }

  /** Unlike `forceStrategy`, the factory refuses no name: one the auto paginator would
      reject gives an auto paginator here. */
  lemma UnknownNameGivesAuto(name: string)
    requires !IsStrategy(name)
    ensures CreatedKind(Some(name)) == None
  {
  }

  /** What the factory hands back. */
  datatype Created = AutoCreated(auto: AutoPaginator) | ConcreteCreated(delegate: Delegate)

  /** `createAuto($queryBuilder)`. */
  method CreateAuto(qb: Descriptor) returns (p: AutoPaginator)
    ensures fresh(p) && p.Valid() && p.Abstract() == AutoState(qb, None, None)
  {
    p := new AutoPaginator(qb);
  }

  /** `createOffset($queryBuilder)`. */
  method CreateOffset(qb: Descriptor) returns (p: OffsetPaginator)
    ensures fresh(p) && p.Valid()
    ensures p.queryBuilder == qb && p.fetchJoinCollection && p.totalItems == None
  {
    p := new OffsetPaginator(qb);
  }

  /** `createSubQuery($queryBuilder)`. */
  method CreateSubQuery(qb: Descriptor) returns (p: SubQueryPaginator)
    ensures fresh(p) && p.queryBuilder == qb && p.totalItems == None
  {
    p := new SubQueryPaginator(qb);
  }

  /** `createSearchAfter($queryBuilder)`. */
  method CreateSearchAfter(qb: Descriptor) returns (p: SearchAfterPaginator)
    ensures fresh(p) && p.queryBuilder == qb && p.idField == "id" && p.orderFields == []
  {
    p := new SearchAfterPaginator(qb, []);
  }

  /** `create($queryBuilder, $strategy)`. */
  method Create(qb: Descriptor, strategy: Option<string>) returns (p: Created)
    ensures CreatedKind(strategy).None? ==>
              p.AutoCreated? && fresh(p.auto) && p.auto.Valid() && p.auto.Abstract() == AutoState(qb, None, None)
    ensures CreatedKind(strategy).Some? ==>
              p.ConcreteCreated? && fresh(p.delegate.Obj()) && p.delegate.Valid() &&
              p.delegate.State() == Initial(CreatedKind(strategy).value, qb)
  {
    if strategy.None? {
      var a := CreateAuto(qb);
      return AutoCreated(a);
    }
    var name := strategy.value;
    if name == Offset {
      var o := new OffsetPaginator(qb);
      p := ConcreteCreated(OffsetDelegate(o));
    } else if name == SubQuery {
      var s := new SubQueryPaginator(qb);
      p := ConcreteCreated(SubQueryDelegate(s));
    } else if name == SearchAfter {
      var s := new SearchAfterPaginator(qb, []);
      p := ConcreteCreated(SearchAfterDelegate(s));
    } else {
      var a := CreateAuto(qb);
      p := AutoCreated(a);
    }
  }
}
