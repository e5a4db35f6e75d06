/** Values shared by every part of the pagination engine: optional values, error
    outcomes, and the PHP values (rows, cursors, bound parameters) the engine
    handles without interpreting them. */
module Common {

  datatype Option<+T> = None | Some(value: T) {
    function GetOr(default: T): T {
      match this
      case Some(v) => v
      case None => default
    }
  }

  /** The exceptions the engine raises, as error values. */
  datatype Error =
    | InvalidPagination(message: string)        // InvalidPaginationException
    | InvalidPaginationStrategy(strategy: string) // InvalidPaginationStrategyException
    | DivisionByZero                            // PHP's DivisionByZeroError on `$total / 0`

  datatype Outcome<+T> = Ok(value: T) | Err(error: Error)

  /** A PHP scalar. */
  datatype Prim = Int(i: int) | Str(s: string) | Bool(b: bool)

  /** A PHP value as the engine sees it: `null`, a scalar, an array with string
      keys kept in insertion order, or an object, which either has a `getId`
      method (`Obj(Some(id))`, with what `getId()` returns) or has none (`Obj(None)`). */
  datatype Val =
    | Null
    | Scalar(prim: Prim)
    | Map(entries: seq<(string, Val)>)
    | Obj(id: Option<Val>)

  /** `$array[$key]`, for an array whose keys are unique: the first entry with that key. */
  function Lookup(entries: seq<(string, Val)>, key: string): (r: Option<Val>)
    ensures r.Some? ==> (key, r.value) in entries
  {
    if entries == [] then None
    else if entries[0].0 == key then Some(entries[0].1)
    else Lookup(entries[1..], key)
  }

  /** A key is found exactly when some entry carries it. */
  lemma {:induction false} LookupFound(entries: seq<(string, Val)>, key: string)
    ensures Lookup(entries, key).Some? <==> exists i :: 0 <= i < |entries| && entries[i].0 == key
  {
    if entries != [] && entries[0].0 != key {
      LookupFound(entries[1..], key);
      if exists i :: 0 <= i < |entries| && entries[i].0 == key {
        var i :| 0 <= i < |entries| && entries[i].0 == key;
        assert entries[1..][i - 1].0 == key;
      }
    }
  }

  /** PHP `isset($v[$key])`: `$v` is an array holding `$key` with a non-null value. */
  predicate Isset(v: Val, key: string) {
    v.Map? && Lookup(v.entries, key).Some? && Lookup(v.entries, key).value != Null
  }

  /** `$v[$key]` where `Isset(v, key)` holds. */
  function At(v: Val, key: string): (r: Val)
    requires Isset(v, key)
    ensures r != Null && (key, r) in v.entries
  {
    Lookup(v.entries, key).value
  }

  /** PHP `is_array($v) && count($v) > 1`. */
  predicate IsMultiField(v: Val) {
    v.Map? && |v.entries| > 1
  }

  /** `[] !== $items ? end($items) : null`: the last row, or null for an empty page. */
  function LastOf(items: seq<Val>): (r: Val)
    ensures items == [] ==> r == Null
    ensures items != [] ==> r == items[|items| - 1]
  {
    if items == [] then Null else items[|items| - 1]
  }

  /** Ceiling of `a / b` for a positive divisor: the `(int) ceil($a / $b)` of the source,
      computed exactly on integers. */
  function CeilDiv(a: int, b: int): (r: int)
    requires b > 0
    ensures (r - 1) * b < a <= r * b
  {
    -((-a) / b)
  }
}
