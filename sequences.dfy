/** Facts about sequences that the proofs over findings and alerts cite by name. */
module Sequences {

  /** Concatenation regroups freely; stated once so that proofs over large terms can cite it. */
  lemma AppendAssoc<T>(a: seq<T>, b: seq<T>, c: seq<T>)
    ensures a + b + c == a + (b + c)
  {
  }
}
