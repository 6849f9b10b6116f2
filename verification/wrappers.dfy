/** Small failure-carrying datatypes shared by the other modules. */
module Wrappers {

  /** A value that may be absent: Python's `None` result of a search or a lookup. */
  datatype Option<+T> = None | Some(value: T)

  /** Either a value or the exception a Python expression raises instead. */
  datatype Result<+T, +E> = Ok(value: T) | Err(error: E)
}
