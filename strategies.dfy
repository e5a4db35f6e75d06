/** The closed set of strategy names the engine understands. */
module Strategies {
  import opened Common

  const Offset: string := "offset"            // LIMIT offset, size: small offsets
  const SubQuery: string := "sub_query"       // count first, then fetch: medium offsets
  const SearchAfter: string := "search_after" // keyset pagination after the last row seen
  const Auto: string := "auto"                // choose from the query's features

  /** `getAllStrategies()`. */
  function AllStrategies(): (r: seq<string>)
    ensures |r| == 4
    ensures forall i, j :: 0 <= i < j < |r| ==> r[i] != r[j]
    ensures r[0] == Offset && r[1] == SubQuery && r[2] == SearchAfter && r[3] == Auto
  {
    [Offset, SubQuery, SearchAfter, Auto]
  }

  /** `in_array($name, getAllStrategies(), true)`. */
  predicate IsStrategy(name: string) {
    name in AllStrategies()
  }

  /** Exactly the four names are strategies; `auto` among them, so it may be forced. */
  lemma StrategyNames(name: string)
    ensures IsStrategy(name) <==> name == Offset || name == SubQuery || name == SearchAfter || name == Auto
    ensures IsStrategy(Auto)
  {
    assert AllStrategies() == [Offset, SubQuery, SearchAfter, Auto];
  }

  /** The paginator a concrete strategy name stands for. */
  datatype Kind = OffsetKind | SubQueryKind | SearchAfterKind

  /** The name each concrete paginator reports from `getStrategy()`. */
  function KindName(k: Kind): (name: string)
    ensures IsStrategy(name) && name != Auto
  {
    match k
    case OffsetKind => Offset
    case SubQueryKind => SubQuery
    case SearchAfterKind => SearchAfter
  }

  /** The three concrete names and their kinds; `auto` and unknown names have none. */
  function KindOf(name: string): (k: Option<Kind>)
    ensures k.Some? <==> IsStrategy(name) && name != Auto
    ensures k.Some? ==> KindName(k.value) == name
  {
    if name == Offset then Some(OffsetKind)
    else if name == SubQuery then Some(SubQueryKind)
    else if name == SearchAfter then Some(SearchAfterKind)
    else None
  }
}
