/** The page record every paginator returns, and the cursor derived from its last row. */
module Model {
  import opened Common

  /** One page of output. It is built only through `Make` (the source's constructor),
      which recomputes `totalPages`; it is never changed afterwards. */
  datatype PaginationResult = PaginationResult(
    items: seq<Val>,
    currentPage: int,
    pageSize: int,
    total: int,
    totalPages: int,
    hasMore: bool,
    lastItem: Val)

  /** `totalPages` is the ceiling of `total / pageSize` for a positive page size, else 0. */
  ghost predicate PageCountFits(total: int, pageSize: int, totalPages: int) {
    if pageSize > 0 then (totalPages - 1) * pageSize < total <= totalPages * pageSize
    else totalPages == 0
  }

  ghost predicate WellFormed(r: PaginationResult) {
    PageCountFits(r.total, r.pageSize, r.totalPages)
  }

  /** The constructor: every field as given, except that the `totalPages` argument is
      discarded and recomputed from `total` and `pageSize`. */
  function Make(items: seq<Val>, currentPage: int, pageSize: int, total: int,
                totalPages: int, hasMore: bool, lastItem: Val): (r: PaginationResult)
    ensures WellFormed(r)
    ensures r.items == items && r.currentPage == currentPage && r.pageSize == pageSize
    ensures r.total == total && r.hasMore == hasMore && r.lastItem == lastItem
  {
    PaginationResult(items, currentPage, pageSize, total,
                     if pageSize > 0 then CeilDiv(total, pageSize) else 0,
                     hasMore, lastItem)
  }

  /** Whatever `totalPages` a caller passes, the record is the same. */
  lemma TotalPagesArgumentIgnored(items: seq<Val>, currentPage: int, pageSize: int, total: int,
                                  t1: int, t2: int, hasMore: bool, lastItem: Val)
    ensures Make(items, currentPage, pageSize, total, t1, hasMore, lastItem)
         == Make(items, currentPage, pageSize, total, t2, hasMore, lastItem)
  {
  }

  /** `totalPages` is uniquely determined by `total` and `pageSize`. */
  lemma {:induction false} PageCountUnique(total: int, pageSize: int, t1: int, t2: int)
    requires PageCountFits(total, pageSize, t1) && PageCountFits(total, pageSize, t2)
    ensures t1 == t2
  {
    if pageSize > 0 && t1 != t2 {
      var lo, hi := if t1 < t2 then t1 else t2, if t1 < t2 then t2 else t1;
      MulMonotone(lo, hi - 1, pageSize);
    }
  }

  lemma MulMonotone(a: int, b: int, k: int)
    requires a <= b && k >= 0
    ensures a * k <= b * k
  {
    assert b * k - a * k == (b - a) * k;
  }

  /** `PaginationResult::empty()`. */
  function Empty(currentPage: int, pageSize: int): (r: PaginationResult)
    ensures WellFormed(r)
    ensures r.items == [] && r.total == 0 && r.totalPages == 0 && !r.hasMore && r.lastItem == Null
    ensures r.currentPage == currentPage && r.pageSize == pageSize
  {
    Make([], currentPage, pageSize, 0, 0, false, Null)
  }

  /** `PaginationResult::create()`: the constructor under another name. */
  function Create(items: seq<Val>, currentPage: int, pageSize: int, total: int,
                  totalPages: int, hasMore: bool, lastItem: Val): (r: PaginationResult)
    ensures WellFormed(r)
    ensures r.items == items && r.currentPage == currentPage && r.pageSize == pageSize
    ensures r.total == total && r.hasMore == hasMore && r.lastItem == lastItem
  {
    Make(items, currentPage, pageSize, total, totalPages, hasMore, lastItem)
  }

  /** `getTotalItems()`, an alias of `getTotal()`. */
  function TotalItems(r: PaginationResult): (n: int)
    ensures n == r.total
  {
    r.total
  }

  /** The resume cursor derived from a last row (`getLastCursor`), checked in this
      order: null; an array with `created_at` set; an array with `id` set; any
      other array; an object with `getId`; anything else. */
  function CursorOf(lastItem: Val): (r: Option<seq<(string, Val)>>)
    ensures r.None? <==> lastItem == Null
    ensures lastItem.Map? ==> r.Some? && forall e :: e in r.value ==> e in lastItem.entries
    ensures Isset(lastItem, "created_at") ==> r == Some(lastItem.entries)
    ensures lastItem.Map? && !Isset(lastItem, "created_at") && Isset(lastItem, "id") ==>
              r == Some([("id", At(lastItem, "id"))])
    ensures lastItem.Map? && !Isset(lastItem, "created_at") && !Isset(lastItem, "id") ==>
              r == Some(lastItem.entries)
    ensures lastItem.Obj? && lastItem.id.Some? ==> r == Some([("id", lastItem.id.value)])
    ensures lastItem.Scalar? || lastItem == Obj(None) ==> r == Some([("value", lastItem)])
  {
    match lastItem
    case Null => None
    case Map(entries) =>
      if Isset(lastItem, "created_at") then Some(entries)
      else if Isset(lastItem, "id") then Some([("id", At(lastItem, "id"))])
      else Some(entries)
    case Obj(Some(id)) => Some([("id", id)])
    case _ => Some([("value", lastItem)])
  }

  /** `getLastCursor()`. */
  function LastCursor(r: PaginationResult): (c: Option<seq<(string, Val)>>)
    ensures c.None? <==> r.lastItem == Null
  {
    CursorOf(r.lastItem)
  }

  /** A value of the plain array `toArray()` returns. */
  datatype Field = Rows(rows: seq<Val>) | Number(n: int) | Flag(b: bool) | Item(v: Val)

  const ArrayKeys: seq<string> :=
    ["items", "currentPage", "pageSize", "total", "totalPages", "hasMore", "lastItem"]

  /** `toArray()`: the seven getters under their own names, in this order. */
  function ToArray(r: PaginationResult): (a: seq<(string, Field)>)
    ensures |a| == 7 && forall i :: 0 <= i < 7 ==> a[i].0 == ArrayKeys[i]
  {
    [("items", Rows(r.items)), ("currentPage", Number(r.currentPage)),
     ("pageSize", Number(r.pageSize)), ("total", Number(r.total)),
     ("totalPages", Number(r.totalPages)), ("hasMore", Flag(r.hasMore)),
     ("lastItem", Item(r.lastItem))]
  }

  function Get(a: seq<(string, Field)>, key: string): Option<Field> {
    if a == [] then None else if a[0].0 == key then Some(a[0].1) else Get(a[1..], key)
  }

  lemma {:induction false} GetFirst(a: seq<(string, Field)>, i: nat, key: string)
    requires i < |a| && a[i].0 == key && forall j :: 0 <= j < i ==> a[j].0 != key
    ensures Get(a, key) == Some(a[i].1)
  {
    if i > 0 {
      GetFirst(a[1..], i - 1, key);
    }
  }

  /** Reads a page record back from the shape `toArray()` produces. */
  function FromArray(a: seq<(string, Field)>): Option<PaginationResult> {
    match (Get(a, "items"), Get(a, "currentPage"), Get(a, "pageSize"), Get(a, "total"),
           Get(a, "totalPages"), Get(a, "hasMore"), Get(a, "lastItem"))
    case (Some(Rows(items)), Some(Number(page)), Some(Number(size)), Some(Number(total)),
          Some(Number(pages)), Some(Flag(more)), Some(Item(last))) =>
      Some(PaginationResult(items, page, size, total, pages, more, last))
    case _ => None
  }

  /** `toArray()` loses nothing: the record is recovered from it. */
  lemma ToArrayRoundTrip(r: PaginationResult)
    ensures FromArray(ToArray(r)) == Some(r)
  {
    var a := ToArray(r);
    GetFirst(a, 0, "items");
    GetFirst(a, 1, "currentPage");
    GetFirst(a, 2, "pageSize");
    GetFirst(a, 3, "total");
    GetFirst(a, 4, "totalPages");
    GetFirst(a, 5, "hasMore");
    GetFirst(a, 6, "lastItem");
  }
}
