/** A value that may be missing, and the larger of two numbers. */
module Wrappers {
  datatype Option<+T> = None | Some(value: T)

  function Max(a: real, b: real): real { if a >= b then a else b }
}
