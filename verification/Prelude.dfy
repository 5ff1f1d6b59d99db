/** Shared value types and constants. */
module Prelude {

  datatype Option<+T> = None | Some(value: T)

  datatype Result<+T, +E> = Ok(value: T) | Err(error: E)

  /** Number.MAX_SAFE_INTEGER, 2^53 - 1. */
  const MAX_SAFE: nat := 9007199254740991

  function Max(a: int, b: int): int {
    if a >= b then a else b
  }

  /** A separator that occurs in neither part before it splits two equal sequences alike. */
  lemma {:induction false} SplitAt<T>(mark: T, a: seq<T>, p: seq<T>, b: seq<T>, q: seq<T>)
    requires a + [mark] + p == b + [mark] + q && mark !in a && mark !in b
    ensures a == b && p == q
  {
    var s := a + [mark] + p;
    assert s[|a|] == mark && s[|b|] == mark by { assert s == b + [mark] + q; }
    assert forall i :: 0 <= i < |a| ==> s[i] == a[i] && s[i] != mark;
    assert forall i :: 0 <= i < |b| ==> s[i] == b[i] && s[i] != mark;
    assert |a| == |b|;
    assert a == s[..|a|] && b == s[..|b|] && p == s[|a| + 1..] && q == s[|b| + 1..];
  }
}
