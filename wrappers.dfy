/** Values that may be absent (a .NET `null`) and results that may be an
    exception instead of a value. */
module Wrappers {
  datatype Option<T> = None | Some(value: T)

  datatype Result<T, E> = Success(value: T) | Failure(error: E)
}
