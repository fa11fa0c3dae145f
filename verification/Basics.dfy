/** Optional values, the outcome of operations that can be rejected, and columns that a session writes. */
module Basics {

  datatype Option<+T> = None | Some(value: T)

  datatype Result<+T, +E> = Ok(value: T) | Err(error: E)

  /** A session sends a column only when its value differs from the one it loaded. */
  function Flush<T(==)>(stored: T, loaded: T, incoming: T): T {
    if incoming == loaded then stored else incoming
  }
}
