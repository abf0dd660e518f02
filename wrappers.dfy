/** Failure-carrying datatypes used by the render core: an optional value
    (a Go pointer that may be nil), a value-or-error pair (Go's `(T, error)`
    return) and a bare error return (Go's `error`, nil on success). */
module Wrappers {

  datatype Option<+T> = None | Some(value: T)

  datatype Result<+R, +E> = Success(value: R) | Failure(error: E)

  datatype Outcome<+E> = Pass | Fail(error: E)
}
