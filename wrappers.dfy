/** Option and Result values: the fatal CHECK failures of the pass become `Err` values. */
module Wrappers {

  datatype Option<+T> = None | Some(value: T)

  datatype Result<+T, +E> = Ok(value: T) | Err(error: E)

  /** The fatal conditions of the pass, one per CHECK that can fire. */
  datatype QatError =
    | DuplicateWhiteNode       // a node inserted twice into the white set
    | DuplicateSelectedEdge    // an edge selected twice
    | LbiCountNotOne           // a selected edge carrying other than one blob
    | MissingConsumerSlot      // an edge with no consumer slot for its blob
    | IbnCountNotOne           // a blob consumed by other than one slot of the edge
    | OpMutatedTwice           // the once-only check of MutOpsOnlyOnce

  /** No element of `s` occurs twice. */
  predicate NoDup<T(==)>(s: seq<T>) {
    forall i, j :: 0 <= i < j < |s| ==> s[i] != s[j]
  }
}
