/** The string operations the engine applies to DQL fragments: substring search
    (`str_contains`), its ASCII case-insensitive form (`stripos`), splitting at the
    first dot (`explode('.', $s, 2)`) and the decimal rendering of integers. */
module Text {

  /** The substring `t` occurs in `s` at position `i`. */
  ghost predicate OccursAt(s: string, t: string, i: int) {
    0 <= i && i + |t| <= |s| && s[i..i + |t|] == t
  }

  /** PHP `str_contains($s, $t)`, as a left-to-right search. */
  function Contains(s: string, t: string): (r: bool)
    decreases |s|
  {
    if |t| <= |s| && s[..|t|] == t then true
    else if |s| <= |t| then false
    else Contains(s[1..], t)
  }

  lemma {:induction false} ContainsIff(s: string, t: string)
    ensures Contains(s, t) <==> exists i :: OccursAt(s, t, i)
  {
    if Contains(s, t) {
      var i := ContainsWitness(s, t);
    }
    forall i | OccursAt(s, t, i) ensures Contains(s, t) {
      OccurrenceFound(s, t, i);
    }
  }

  lemma {:induction false} ContainsWitness(s: string, t: string) returns (i: int)
    requires Contains(s, t)
    ensures OccursAt(s, t, i)
    decreases |s|
  {
    if |t| <= |s| && s[..|t|] == t {
      i := 0;
    } else {
      var j := ContainsWitness(s[1..], t);
      assert s[1..][j..j + |t|] == s[j + 1..j + 1 + |t|];
      i := j + 1;
    }
  }

  lemma {:induction false} OccurrenceFound(s: string, t: string, i: int)
    requires OccursAt(s, t, i)
    ensures Contains(s, t)
    decreases i
  {
    if i == 0 {
      assert s[..|t|] == s[0..|t|];
    } else if !(|t| <= |s| && s[..|t|] == t) {
      assert s[1..][i - 1..i - 1 + |t|] == s[i..i + |t|];
      OccurrenceFound(s[1..], t, i - 1);
    }
  }

  /** ASCII lower-casing, as PHP 8 `stripos` applies it. */
  function Lower(c: char): (r: char)
    ensures 'A' <= c <= 'Z' ==> r as int == c as int + 32
    ensures !('A' <= c <= 'Z') ==> r == c
  {
    if 'A' <= c <= 'Z' then (c as int + 32) as char else c
  }

  function LowerAll(s: string): (r: string)
    ensures |r| == |s| && forall i :: 0 <= i < |s| ==> r[i] == Lower(s[i])
  {
    seq(|s|, i requires 0 <= i < |s| => Lower(s[i]))
  }

  /** PHP `false !== stripos($s, $t)`. */
  predicate ContainsIgnoringCase(s: string, t: string) {
    Contains(LowerAll(s), LowerAll(t))
  }

  /** Index of the first occurrence of `c` in `s`, if any. */
  function IndexOf(s: string, c: char): (r: Position)
    ensures r.Found? ==>
              0 <= r.index < |s| && s[r.index] == c && forall j :: 0 <= j < r.index ==> s[j] != c
    ensures r.NotFound? ==> forall j :: 0 <= j < |s| ==> s[j] != c
  {
    if s == [] then NotFound
    else if s[0] == c then Found(0)
    else match IndexOf(s[1..], c)
      case NotFound => NotFound
      case Found(k) => Found(k + 1)
  }

  datatype Position = NotFound | Found(index: nat)

  /** Decimal rendering of an integer, as PHP's `(string)` cast gives it. */
  function IntToString(n: int): (r: string)
    ensures |r| > 0
    decreases if n < 0 then 1 - n else n
  {
    if n < 0 then "-" + IntToString(-n)
    else if n < 10 then [Digit(n)]
    else IntToString(n / 10) + [Digit(n % 10)]
  }

  function Digit(d: int): char
    requires 0 <= d < 10
  {
    "0123456789"[d]
  }
}
