/** Optional values, standing for Python's `None` and for "the call failed"; and `Min`. */
module Wrappers {

  datatype Option<+T> = None | Some(value: T)

  /** The smaller of two counts, as the length of a `[:n]` slice is. */
  function Min(a: nat, b: nat): nat {
    if a <= b then a else b
  }
}
