/** Optional values and fallible results, used for the `(T, error)` pairs
    that Go functions return. */
module Wrappers {

  /** A value that may be absent (a Go `nil` interface value). */
  datatype Option<T> = None | Some(value: T)

  /** The outcome of a fallible call: the value, or the error it reported. */
  datatype Result<T, E> = Ok(value: T) | Err(error: E)
}
