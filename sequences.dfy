/** Facts about sequences that the string and call-log proofs share. */
module Sequences {

  /** Concatenation does not depend on grouping. */
  lemma AppendAssociative<T>(a: seq<T>, b: seq<T>, c: seq<T>)
    ensures (a + b) + c == a + (b + c)
  {
  }
}
