/** The query descriptor the engine works on, standing for Doctrine's QueryBuilder:
    the parts of the query it reads, the builder calls it makes on clones, and the
    execution results, which come from the outside as oracle functions. */
module Query {
  import opened Common

  /** A DQL part that Doctrine stores as `null`, as an array of fragments, or as an
      expression object (rendered to its DQL text). */
  datatype Part = Absent | List(fragments: seq<string>) | Expr(text: string)

  /** One ordering clause: its expression (`o.id`) and direction (`ASC`). */
  datatype OrderItem = OrderItem(expr: string, direction: string)

  datatype Descriptor = Descriptor(
    rootAliases: seq<string>,
    select: seq<string>,
    joins: seq<(string, seq<string>)>, // root alias => its join clauses
    where: Part,
    groupBy: seq<string>,
    having: Part,
    orderBy: seq<OrderItem>,
    params: seq<(string, Val)>,
    firstResult: int,
    maxResults: Option<int>)

  /** A builder call made on a clone, recorded in the order it is made. */
  datatype Call =
    | OrderBy(sort: string, order: string)     // replaces the ordering
    | AddOrderBy(sort: string, order: string)  // appends to the ordering
    | AndWhere(condition: string)
    | SetParameter(name: string, value: Val)
    | SetFirstResult(first: int)
    | SetMaxResults(max: int)
    | ResetSelect
    | ResetOrderBy
    | Select(selection: string)
    | QueryHint(hint: string, setting: string)   // `getQuery()->setHint(...)`

  /** `andWhere`: the new condition joins the existing one with AND. */
  function Conjoin(where: Part, condition: string): Part {
    match where
    case Expr(text) => Expr("(" + text + ") AND (" + condition + ")")
    case _ => Expr(condition)
  }

  /** `setParameter`: a parameter of the same name is replaced in place, else appended. */
  function Bind(params: seq<(string, Val)>, name: string, value: Val): (r: seq<(string, Val)>)
    ensures Lookup(r, name) == Some(value)
    ensures forall k :: k != name ==> Lookup(r, k) == Lookup(params, k)
  {
    if params == [] then [(name, value)]
    else if params[0].0 == name then [(name, value)] + params[1..]
    else [params[0]] + Bind(params[1..], name, value)
  }

  /** The effect of one builder call on the descriptor. `getQuery()` builds a separate
      query object, so a hint set on it leaves the descriptor as it was. */
  function Apply(d: Descriptor, c: Call): Descriptor {
    match c
    case OrderBy(sort, order) => d.(orderBy := [OrderItem(sort, order)])
    case AddOrderBy(sort, order) => d.(orderBy := d.orderBy + [OrderItem(sort, order)])
    case AndWhere(condition) => d.(where := Conjoin(d.where, condition))
    case SetParameter(name, value) => d.(params := Bind(d.params, name, value))
    case SetFirstResult(first) => d.(firstResult := first)
    case SetMaxResults(max) => d.(maxResults := Some(max))
    case ResetSelect => d.(select := [])
    case ResetOrderBy => d.(orderBy := [])
    case Select(selection) => d.(select := [selection])
    case QueryHint(_, _) => d
  }

  /** The descriptor a clone of `d` holds after the calls in `calls`. */
  function Replay(d: Descriptor, calls: seq<Call>): Descriptor
    decreases |calls|
  {
    if calls == [] then d else Apply(Replay(d, calls[..|calls| - 1]), calls[|calls| - 1])
  }

  /** Appending call logs is associative. */
  lemma ConcatAssoc(xs: seq<Call>, ys: seq<Call>, zs: seq<Call>)
    ensures xs + ys + zs == xs + (ys + zs)
  {
  }

  lemma {:induction false} ReplayAppend(d: Descriptor, xs: seq<Call>, ys: seq<Call>)
    ensures Replay(d, xs + ys) == Replay(Replay(d, xs), ys)
    decreases |ys|
  {
    if ys == [] {
      assert xs + ys == xs;
    } else {
      assert (xs + ys)[..|xs + ys| - 1] == xs + ys[..|ys| - 1];
      ReplayAppend(d, xs, ys[..|ys| - 1]);
    }
  }

  lemma ReplayTwo(d: Descriptor, c1: Call, c2: Call)
    ensures Replay(d, [c1, c2]) == Apply(Apply(d, c1), c2)
  {
    assert [c1, c2][..1] == [c1] && [c1][..0] == [];
    assert Replay(d, [c1]) == Apply(d, c1);
  }

  lemma ReplayThree(d: Descriptor, c1: Call, c2: Call, c3: Call)
    ensures Replay(d, [c1, c2, c3]) == Apply(Apply(Apply(d, c1), c2), c3)
  {
    assert [c1, c2, c3][..2] == [c1, c2];
    ReplayTwo(d, c1, c2);
  }

  /** A clone of a query descriptor (`clone $queryBuilder`), changed call by call.
      It is a fresh object, so the caller's descriptor is never altered. */
  class Builder {
    ghost const origin: Descriptor
    var desc: Descriptor
    var log: seq<Call>

    ghost predicate Valid()
      reads this
    {
      desc == Replay(origin, log)
    }

    constructor (d: Descriptor)
      ensures Valid() && origin == d && desc == d && log == []
    {
      origin := d;
      desc := d;
      log := [];
    }

    method Perform(c: Call)
      requires Valid()
      modifies this
      ensures Valid() && log == old(log) + [c] && desc == Apply(old(desc), c)
    {
      desc := Apply(desc, c);
      log := log + [c];
      assert log[..|log| - 1] == old(log);
    }
  }

  /** What running a query returns, supplied from the outside. */
  datatype Env = Env(
    result: Descriptor -> seq<Val>,          // `$qb->getQuery()->getResult()`
    paged: (Descriptor, bool) -> seq<Val>,   // rows of `new DoctrinePaginator($qb, $fetchJoinCollection)`
    pagedCount: (Descriptor, bool) -> nat,   // `count()` of that Doctrine paginator
    scalar: Descriptor -> int,               // `(int) getSingleScalarResult()`
    probe: Descriptor -> Option<int>,        // the analyzer's COUNT probe; None when it throws
    jsonEncode: Val -> Option<string>,       // `json_encode`; None when it returns false
    objectString: Val -> string)             // `(string)` of an object
}
