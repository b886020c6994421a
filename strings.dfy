/** String operations from Rust's standard library used by the add-on core:
    substring search (`str::contains`) and decimal rendering of an unsigned
    integer (`u32::to_string`). */
module Strings {

  /** `needle` occurs in `haystack` starting at index `k`. */
  ghost predicate OccursAt(haystack: string, needle: string, k: int)
  {
    0 <= k && k + |needle| <= |haystack| && haystack[k..k + |needle|] == needle
  }

  /** `haystack.contains(needle)` for a string pattern. */
  function Contains(haystack: string, needle: string): (r: bool)
    ensures r <==> exists k :: OccursAt(haystack, needle, k)
    decreases |haystack|
  {
    if needle <= haystack then
      assert OccursAt(haystack, needle, 0);
      true
    else if |haystack| == 0 then
      false
    else
      var rest := Contains(haystack[1..], needle);
      ContainsStep(haystack, needle);
      rest
  }

  /** An occurrence is at the start or in the tail. */
  lemma ContainsStep(haystack: string, needle: string)
    requires |haystack| > 0 && !(needle <= haystack)
    ensures (exists k :: OccursAt(haystack, needle, k)) <==> (exists k :: OccursAt(haystack[1..], needle, k))
  {
    var tail := haystack[1..];
    forall k | OccursAt(haystack, needle, k) ensures OccursAt(tail, needle, k - 1) {
      assert k != 0;
      assert tail[k - 1..k - 1 + |needle|] == haystack[k..k + |needle|];
    }
    forall k | OccursAt(tail, needle, k) ensures OccursAt(haystack, needle, k + 1) {
      assert tail[k..k + |needle|] == haystack[k + 1..k + 1 + |needle|];
    }
  }

  /** Every string contains itself. */
  lemma ContainsSelf(s: string)
    ensures Contains(s, s)
  {
    assert OccursAt(s, s, 0);
  }

  /** Every string contains the empty string. */
  lemma ContainsEmpty(s: string)
    ensures Contains(s, "")
  {
    assert OccursAt(s, "", 0);
  }

  predicate IsAsciiDigit(c: char)
  {
    '0' <= c <= '9'
  }

  function DigitChar(d: nat): (c: char)
    requires d < 10
    ensures IsAsciiDigit(c)
    ensures c as int - '0' as int == d
  {
    "0123456789"[d]
  }

  /** The number a string of ASCII digits denotes in decimal. */
  function DecimalValue(s: string): nat
    requires forall i :: 0 <= i < |s| ==> IsAsciiDigit(s[i])
    decreases |s|
  {
    if |s| == 0 then 0
    else
      assert IsAsciiDigit(s[|s| - 1]);
      10 * DecimalValue(s[..|s| - 1]) + (s[|s| - 1] as int - '0' as int)
  }

  /** `n.to_string()` for an unsigned integer: its decimal digits, most
      significant first, with no leading zero. */
  function NatToString(n: nat): (r: string)
    ensures |r| > 0
    ensures forall i :: 0 <= i < |r| ==> IsAsciiDigit(r[i])
    ensures DecimalValue(r) == n
    ensures r[0] == '0' ==> n == 0
    ensures |r| > 1 ==> r[0] != '0'
    decreases n
  {
    if n < 10 then
      [DigitChar(n)]
    else
      var prefix := NatToString(n / 10);
      var r := prefix + [DigitChar(n % 10)];
      assert r[..|r| - 1] == prefix;
      r
  }

  /** Distinct numbers render as distinct strings. */
  lemma NatToStringInjective(m: nat, n: nat)
    requires NatToString(m) == NatToString(n)
    ensures m == n
  {
  }
}
