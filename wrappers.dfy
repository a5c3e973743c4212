/** The optional value used for `Option`-typed inputs and components, and a fact
    about sequences that the order-preserving filters rely on. */
module Wrappers {
  datatype Option<T> = None | Some(value: T)

  /** Dropping the last element of a + b drops the last element of b. */
  lemma SplitLast<T>(a: seq<T>, b: seq<T>)
    requires b != []
    ensures (a + b)[..|a + b| - 1] == a + b[..|b| - 1]
    ensures (a + b)[|a + b| - 1] == b[|b| - 1]
  {
  }
}
