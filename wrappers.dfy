/** Option and Result datatypes shared by every module of the model.
    A Go function returning `(T, error)` becomes a `Result<T>`: `Ok(v)` for a nil
    error, `Err(msg)` for a non-nil error whose `Error()` text is `msg`. */
module Wrappers {

  datatype Option<+T> = None | Some(value: T)

  datatype Result<+T> = Ok(value: T) | Err(error: string)
}
