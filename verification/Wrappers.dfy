/** Option and Result, shared by every module. */
module Wrappers {
  datatype Option<+T> = None | Some(value: T)

  datatype Result<+T, +E> = Ok(value: T) | Err(error: E)

  /** The value as a sequence, if there is one. */
  function One<T>(o: Option<T>): seq<T> {
    if o.Some? then [o.value] else []
  }
}
