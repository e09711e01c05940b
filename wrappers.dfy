/** Option and Result: the "undefined value" of a pandas column (NaN, warm-up)
    and the exceptions the Python code raises are values here. */
module Wrappers {
  datatype Option<T> = None | Some(value: T)

  datatype Result<T> = Ok(value: T) | Err(error: string)

  /** A comparison against a NaN cell is False in pandas/numpy. */
  predicate Below(o: Option<real>, bound: real) { o.Some? && o.value < bound }
  predicate Above(o: Option<real>, bound: real) { o.Some? && o.value > bound }
}
