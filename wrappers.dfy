/** Optional values and the outcome of an operation that may raise. */
module Wrappers {

  /** A value that may be absent (Python's `None`). */
  datatype Option<+T> = None | Some(value: T)

  /**
   * The outcome of a Python call that either returns a value or lets an
   * exception propagate to its caller; `exception` names what was raised.
   */
  datatype Result<+T> = Ok(value: T) | Raised(exception: string)
}
