/** Concatenation, where it has to be regrouped by hand. */
module Sequences {
  lemma Joined<T>(a: seq<T>, b: seq<T>, c: seq<T>)
    ensures (a + b) + c == a + (b + c)
  {
  }
}
