/** Subsequences, for the filters the program runs over its tables. */
module Seqs {

  /** `r` is `xs` read at the strictly increasing indices `pos`: the
      elements of `r` are elements of `xs`, in the order `xs` has them. */
  predicate PicksAt<T(==)>(r: seq<T>, xs: seq<T>, pos: seq<nat>)
  {
    && |pos| == |r|
    && (forall t | 0 <= t < |pos| :: pos[t] < |xs| && xs[pos[t]] == r[t])
    && (forall s, t | 0 <= s < t < |pos| :: pos[s] < pos[t])
  }
}
