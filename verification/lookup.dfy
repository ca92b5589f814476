/** First-match search in a sequence, the way a Swift collection's
    `firstIndex(where:)` answers it for an equality test. */
module Lookup {
  import opened Optional

  /** `k` is where `x` occurs in `s` for the first time. */
  predicate IsFirstIndex<E(==)>(s: seq<E>, x: E, k: nat) {
    k < |s| && s[k] == x && forall j :: 0 <= j < k ==> s[j] != x
  }

  /** No element of `s` occurs twice. */
  predicate Distinct<E(==)>(s: seq<E>) {
    forall i, j :: 0 <= i < j < |s| ==> s[i] != s[j]
  }

  /** Scans `s` from the front and answers the position of the first element equal
      to `x`, or nothing when `x` does not occur. */
  function FirstIndex<E(==)>(s: seq<E>, x: E): (r: Option<nat>)
    ensures r.None? <==> x !in s
    ensures r.Some? ==> IsFirstIndex(s, x, r.value)
    decreases |s|
  {
    if |s| == 0 then None
    else if s[0] == x then Some(0)
    else
      match FirstIndex(s[1..], x)
      case None => None
      case Some(k) => Some(k + 1)
  }

  /** There is only one first occurrence, and the search finds it. */
  lemma FirstIndexIsUnique<E>(s: seq<E>, x: E, k: nat)
    requires IsFirstIndex(s, x, k)
    ensures FirstIndex(s, x) == Some(k)
  {
  }

  /** In a sequence without repetitions, searching for the element at `k` answers `k`. */
  lemma FirstIndexOfDistinct<E>(s: seq<E>, k: nat)
    requires Distinct(s)
    requires k < |s|
    ensures FirstIndex(s, s[k]) == Some(k)
  {
    FirstIndexIsUnique(s, s[k], k);
  }
}
