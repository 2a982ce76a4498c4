/** Definitions that several parts of the model use. */
module Shared {

  datatype Option<T> = None | Some(v: T)

  /** The largest value Lua lets a counter reach (llimits.h). */
  const MAX_INT := 0x7FFF_FFFF - 2

  predicate NoDup(s: seq<int>) { forall i, j :: 0 <= i < j < |s| ==> s[i] != s[j] }

  function Pow2(n: nat): (r: nat)
    ensures r >= 1
  {
    if n == 0 then 1 else 2 * Pow2(n - 1)
  }

  predicate IsDigit(c: char) { '0' <= c <= '9' }
}
