/** Optional values and fallible results, used where the dashboard's Python code
    relies on an unbound global or an unbound local variable. */
module Wrappers {

  /** A value that may be absent (a global that no callback has assigned yet). */
  datatype Option<+T> = None | Some(value: T)

  /** The outcome of an operation that can fail. */
  datatype Result<+R, +E> = Success(value: R) | Failure(error: E)
}
