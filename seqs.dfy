/** Order-preserving selection from a sequence, the shape every filtering loop
    of the program produces. */
module Seqs {

  /** `idx` lists, in strictly increasing order, positions of `s` whose
      elements, read in that order, are exactly `r`. */
  ghost predicate Embedding<T>(r: seq<T>, s: seq<T>, idx: seq<int>) {
    && |idx| == |r|
    && (forall k :: 0 <= k < |idx| ==> 0 <= idx[k] < |s| && r[k] == s[idx[k]])
    && (forall k, l :: 0 <= k < l < |idx| ==> idx[k] < idx[l])
  }

  /** `r` is `s` with some elements dropped and the rest kept in order. */
  ghost predicate IsSubsequence<T>(r: seq<T>, s: seq<T>) {
    exists idx :: Embedding(r, s, idx)
  }

  predicate StrictlyIncreasing(s: seq<int>) {
    forall k, l :: 0 <= k < l < |s| ==> s[k] < s[l]
  }

  /** Appending an element to `s` extends an embedding into `s`, whether or
      not the new element is kept. */
  lemma EmbeddingSnoc<T>(r: seq<T>, s: seq<T>, idx: seq<int>, x: T, keep: bool)
    requires Embedding(r, s, idx)
    ensures Embedding(r + (if keep then [x] else []), s + [x], idx + (if keep then [|s|] else []))
  {
  }

  /** A subsequence is never longer than the sequence it is taken from. */
  lemma {:induction false} SubsequenceLength<T>(r: seq<T>, s: seq<T>, idx: seq<int>)
    requires Embedding(r, s, idx)
    ensures |r| <= |s|
  {
    if |r| > 0 {
      var n := |r| - 1;
      assert Embedding(r[..n], s[..idx[n]], idx[..n]);
      SubsequenceLength(r[..n], s[..idx[n]], idx[..n]);
    }
  }
}
