/** Failure carriers used in place of Python's `None` returns and raised
    exceptions: `Option` for "a value or None", `Result` for "a value or an
    error message". */
module Wrappers {

  datatype Option<T> = None | Some(value: T)

  datatype Result<T, E> = Success(value: T) | Failure(error: E)
}
