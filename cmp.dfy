/** Rust's `std::cmp::Ordering` and the orderings the add-on core relies on:
    `str::cmp` (lexicographic, shorter prefix first) and the derived order on
    `Option`, in which `None` is below every `Some`. */
module Cmp {
  import opened Options

  datatype Ordering = Less | Equal | Greater {

    /** `Ordering::reverse`. */
    function Reverse(): (r: Ordering)
      ensures (r == Less) <==> (this == Greater)
      ensures (r == Equal) <==> (this == Equal)
      ensures (r == Greater) <==> (this == Less)
    {
      match this
      case Less => Greater
      case Equal => Equal
      case Greater => Less
    }

    /** `Ordering::then_with` with an already evaluated tie-break. */
    function Then(tieBreak: Ordering): (r: Ordering)
      ensures this != Equal ==> r == this
      ensures this == Equal ==> r == tieBreak
    {
      if this == Equal then tieBreak else this
    }
  }

  /** `a` comes strictly before `b` in lexicographic order: at the first
      position where they differ `a` has the smaller character, or `a` is a
      proper prefix of `b`. A reference definition, independent of CompareStr. */
  ghost predicate LexLess(a: string, b: string)
  {
    (|a| < |b| && a == b[..|a|])
    || exists k :: DiffersFirstAt(a, b, k) && a[k] < b[k]
  }

  /** `k` is the first position at which `a` and `b` differ. */
  ghost predicate DiffersFirstAt(a: string, b: string, k: int)
  {
    0 <= k < |a| && k < |b| && a[..k] == b[..k] && a[k] != b[k]
  }

  /** `str::cmp` on strings as sequences of Unicode scalar values (the same
      order as Rust's byte-wise comparison of their UTF-8 encodings). */
  function CompareStr(a: string, b: string): (r: Ordering)
    ensures r == Equal <==> a == b
    decreases |a|
  {
    if |a| == 0 && |b| == 0 then Equal
    else if |a| == 0 then Less
    else if |b| == 0 then Greater
    else if a[0] < b[0] then Less
    else if b[0] < a[0] then Greater
    else
      var rest := CompareStr(a[1..], b[1..]);
      assert rest == Equal ==> a == [a[0]] + a[1..] == [b[0]] + b[1..] == b;
      rest
  }

  /** Swapping the arguments of CompareStr reverses the result. */
  lemma {:induction false} CompareStrAntisymmetric(a: string, b: string)
    ensures CompareStr(b, a) == CompareStr(a, b).Reverse()
    decreases |a|
  {
    if |a| > 0 && |b| > 0 && a[0] == b[0] {
      CompareStrAntisymmetric(a[1..], b[1..]);
    }
  }

  /** CompareStr agrees with the reference lexicographic order. */
  lemma {:induction false} CompareStrLessIff(a: string, b: string)
    ensures CompareStr(a, b) == Less <==> LexLess(a, b)
    decreases |a|
  {
    if |a| == 0 {
      if |b| > 0 { assert a == b[..0]; }
    } else if |b| == 0 {
      assert !LexLess(a, b);
    } else if a[0] != b[0] {
      assert DiffersFirstAt(a, b, 0);
    } else {
      CompareStrLessIff(a[1..], b[1..]);
      LexLessTail(a, b);
    }
  }

  /** With equal first characters, lexicographic order is decided by the tails. */
  lemma LexLessTail(a: string, b: string)
    requires |a| > 0 && |b| > 0 && a[0] == b[0]
    ensures LexLess(a, b) <==> LexLess(a[1..], b[1..])
  {
    var a', b' := a[1..], b[1..];
    if |a'| < |b'| && a' == b'[..|a'|] {
      assert a == [a[0]] + a' && b[..|a|] == [b[0]] + b'[..|a'|];
    }
    if |a| < |b| && a == b[..|a|] {
      assert a' == a[1..] == b[..|a|][1..] == b'[..|a'|];
    }
    forall k | DiffersFirstAt(a', b', k) && a'[k] < b'[k] ensures LexLess(a, b) {
      assert a[..k + 1] == [a[0]] + a'[..k] && b[..k + 1] == [b[0]] + b'[..k];
      assert DiffersFirstAt(a, b, k + 1);
    }
    forall k | DiffersFirstAt(a, b, k) && a[k] < b[k] ensures LexLess(a', b') {
      assert k > 0;
      assert a'[..k - 1] == a[..k][1..] && b'[..k - 1] == b[..k][1..];
      assert DiffersFirstAt(a', b', k - 1);
    }
  }

  /** CompareStr is transitive on `Less`. */
  lemma {:induction false} CompareStrTransitive(a: string, b: string, c: string)
    requires CompareStr(a, b) == Less && CompareStr(b, c) == Less
    ensures CompareStr(a, c) == Less
    decreases |a|
  {
    if |a| > 0 && |b| > 0 && |c| > 0 && a[0] == b[0] && b[0] == c[0] {
      CompareStrTransitive(a[1..], b[1..], c[1..]);
    }
  }

  /** Rust's derived `Ord` on `Option<T>`, given the order on `T`:
      `None < Some(_)`, two `Some`s compare their contents. */
  function CompareOption<T>(a: Option<T>, b: Option<T>, cmp: (T, T) -> Ordering): (r: Ordering)
    ensures a.None? && b.Some? ==> r == Less
    ensures a.Some? && b.None? ==> r == Greater
    ensures a.None? && b.None? ==> r == Equal
    ensures a.Some? && b.Some? ==> r == cmp(a.value, b.value)
  {
    match (a, b)
    case (None, None) => Equal
    case (None, Some(_)) => Less
    case (Some(_), None) => Greater
    case (Some(x), Some(y)) => cmp(x, y)
  }

  /** Rust's `a > b` on `Option<i64>`, with `None` below every `Some`. */
  function OptionGreater(a: Option<int>, b: Option<int>): (r: bool)
    ensures r <==> a.Some? && (b.None? || a.value > b.value)
  {
    CompareOption(a, b, CompareInt) == Greater
  }

  function CompareInt(x: int, y: int): Ordering
  {
    if x < y then Less else if x == y then Equal else Greater
  }
}
