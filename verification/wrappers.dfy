/** Failure-compatible helper datatypes shared by the other modules. */
module Wrappers {

  /** A value that may be absent; stands for Python's `None`. */
  datatype Option<+T> = None | Some(value: T)

  /** Either a computed value or the error that stopped the computation. */
  datatype Result<+R, +E> = Ok(value: R) | Err(error: E)
}
