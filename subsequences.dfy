/** Order-preserving selection: `a` is a subsequence of `b`. */
module Subsequences {

  /** `idx` picks, in increasing positions of `b`, the elements of `a`. */
  ghost predicate Embeds<T>(a: seq<T>, b: seq<T>, idx: seq<nat>) {
    && |idx| == |a|
    && (forall i :: 0 <= i < |idx| ==> idx[i] < |b| && a[i] == b[idx[i]])
    && (forall i, j :: 0 <= i < j < |idx| ==> idx[i] < idx[j])
  }

  ghost predicate IsSubsequence<T>(a: seq<T>, b: seq<T>) {
    exists idx :: Embeds(a, b, idx)
  }

  /** Appending to both sides keeps an embedding; appending to `b` alone too. */
  lemma EmbedsSnoc<T>(a: seq<T>, b: seq<T>, idx: seq<nat>, x: T, taken: bool)
    requires Embeds(a, b, idx)
    ensures taken ==> Embeds(a + [x], b + [x], idx + [|b|])
    ensures !taken ==> Embeds(a, b + [x], idx)
  {
  }
}
