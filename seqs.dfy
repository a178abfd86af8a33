/** Facts about sequences that the other modules share. */
module Seqs {
  /** Concatenation regrouped; the solver often needs this step named explicitly. */
  lemma ConcatAssoc<T>(a: seq<T>, b: seq<T>, c: seq<T>)
    ensures a + (b + c) == (a + b) + c
  {
  }
}
