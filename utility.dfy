/** `crate::utility::strip_non_digits`. Its source is not part of this model;
    it is modelled as keeping the ASCII digits of the input, in order, and
    always returning `Some`. */
module Utility {
  import opened Options
  import opened Strings

  /** The ASCII digits of `s`, in order. */
  function Digits(s: string): (r: string)
    ensures forall i :: 0 <= i < |r| ==> IsAsciiDigit(r[i])
    ensures |r| <= |s|
    decreases |s|
  {
    if |s| == 0 then ""
    else
      var rest := Digits(s[1..]);
      if IsAsciiDigit(s[0]) then [s[0]] + rest else rest
  }

  /** A character survives stripping iff it is an ASCII digit of the input. */
  lemma {:induction false} DigitsMembers(s: string)
    ensures forall c :: c in Digits(s) <==> c in s && IsAsciiDigit(c)
    decreases |s|
  {
    if |s| > 0 {
      DigitsMembers(s[1..]);
      assert forall c :: c in s <==> c == s[0] || c in s[1..];
    }
  }

  function StripNonDigits(s: string): (r: Option<string>)
    ensures r == Some(Digits(s))
  {
    Some(Digits(s))
  }

  /** Stripping twice is stripping once. */
  lemma {:induction false} DigitsIdempotent(s: string)
    ensures Digits(Digits(s)) == Digits(s)
    decreases |s|
  {
    if |s| > 0 {
      DigitsIdempotent(s[1..]);
      var rest := Digits(s[1..]);
      if IsAsciiDigit(s[0]) {
        assert ([s[0]] + rest)[1..] == rest;
      }
    }
  }

  /** Stripping distributes over concatenation. */
  lemma {:induction false} DigitsConcat(s: string, t: string)
    ensures Digits(s + t) == Digits(s) + Digits(t)
    decreases |s|
  {
    if |s| > 0 {
      assert (s + t)[1..] == s[1..] + t;
      DigitsConcat(s[1..], t);
    } else {
      assert s + t == t;
    }
  }
}
