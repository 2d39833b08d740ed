/** Task identifiers: the server assigns natural numbers; the client shows
    them as their decimal strings (`id.toString()`) and keeps a reserved
    namespace of synthetic ids, those starting with "default-", for its
    local placeholder tasks. The server reads the `:id` path parameter back
    as a number. */
module Ids {
  import opened JsValues

  const SyntheticPrefix: string := "default-"

  predicate StartsWith(s: string, prefix: string) {
    |prefix| <= |s| && s[..|prefix|] == prefix
  }

  /** `id.startsWith("default-")`: the id of a client-only placeholder. */
  predicate IsSynthetic(id: string) {
    StartsWith(id, SyntheticPrefix)
  }

  predicate IsDigit(c: char) {
    '0' <= c <= '9'
  }

  predicate AllDigits(s: string) {
    forall i :: 0 <= i < |s| ==> IsDigit(s[i])
  }

  function DigitChar(d: nat): (c: char)
    requires d < 10
  {
    (48 + d) as char
  }

  function DigitValue(c: char): (d: nat)
    requires IsDigit(c)
  {
    c as int - 48
  }

  /** `n.toString()` for a non-negative integer: its decimal digits. A
      decimal string is never synthetic, so server ids and placeholder ids
      cannot collide. */
  function NatToString(n: nat): (s: string)
    ensures |s| > 0 && AllDigits(s)
    ensures !IsSynthetic(s)
    decreases n
  {
    var s := if n < 10 then [DigitChar(n)] else NatToString(n / 10) + [DigitChar(n % 10)];
    assert IsDigit(s[0]) && !IsDigit(SyntheticPrefix[0]);
    s
  }

  /** The number a string of decimal digits denotes. */
  function DigitsValue(s: string): nat
    requires AllDigits(s)
  {
    if s == [] then 0 else DigitsValue(s[..|s| - 1]) * 10 + DigitValue(s[|s| - 1])
  }

  /** The record id that the `:id` path parameter selects: a non-empty string
      of decimal digits denotes its number; any other text matches no id. */
  function ParseId(s: string): (r: Option<nat>)
    ensures r.Some? <==> |s| > 0 && AllDigits(s)
  {
    if |s| > 0 && AllDigits(s) then Some(DigitsValue(s)) else None
  }

  /** Reading back a stringified id gives the id: the client's `id.toString()`
      in a URL selects the record it came from. */
  lemma {:induction false} ParseNatToString(n: nat)
    ensures ParseId(NatToString(n)) == Some(n)
    decreases n
  {
    var s := NatToString(n);
    if n < 10 {
      assert s == [DigitChar(n)];
      assert s[..|s| - 1] == [];
      assert DigitsValue(s) == DigitsValue([]) * 10 + DigitValue(s[0]);
    } else {
      ParseNatToString(n / 10);
      assert s[..|s| - 1] == NatToString(n / 10);
      assert DigitValue(s[|s| - 1]) == n % 10;
    }
  }
}
