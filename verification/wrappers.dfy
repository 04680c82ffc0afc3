/** Failure-carrying values. A Go call that returns `(value, err)` or panics is
    modelled as a `Result`: `Ok` for a normal return with a nil error, `Err`
    for an error return or a runtime panic. */
module Wrappers {

  datatype Option<+T> = None | Some(value: T)

  datatype Result<+T, +E> = Ok(value: T) | Err(error: E)
}
