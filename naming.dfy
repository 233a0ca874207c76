/** The string helpers the generator builds method names with: Kotlin's
    `capitalize()` and `toLowerCase()`, on ASCII letters. */
module Naming {
  import opened Types

  function UpperChar(c: char): char {
    if 'a' <= c <= 'z' then (c as int - 32) as char else c
  }

  function LowerChar(c: char): char {
    if 'A' <= c <= 'Z' then (c as int + 32) as char else c
  }

  /** First letter upper-cased, the rest kept. */
  function Capitalize(s: string): (r: string)
    ensures |r| == |s|
    ensures |s| > 0 ==> r[0] == UpperChar(s[0]) && r[1..] == s[1..]
  {
    if s == [] then [] else [UpperChar(s[0])] + s[1..]
  }

  function ToLower(s: string): (r: string)
    ensures |r| == |s|
    ensures forall i | 0 <= i < |s| :: r[i] == LowerChar(s[i])
  {
    seq(|s|, i requires 0 <= i < |s| => LowerChar(s[i]))
  }

  /** The SQL keyword of an order, as written into query text. */
  function OrderLiteral(o: Order): string {
    match o
    case ASC => "ASC"
    case DESC => "DESC"
  }

  /** `order.toLowerCase().capitalize()`, the order's part of an internal name. */
  function OrderSuffix(o: Order): string {
    Capitalize(ToLower(OrderLiteral(o)))
  }

  /** The suffixes are `Asc` and `Desc`, so the two orders never share a name. */
  lemma OrderSuffixValues()
    ensures OrderSuffix(ASC) == "Asc"
    ensures OrderSuffix(DESC) == "Desc"
  {
    assert ToLower("ASC") == "asc";
    assert ToLower("DESC") == "desc";
  }
}
