/** Stock result types, the service's error kinds and small helpers shared by every module. */
module Wrappers {
  datatype Option<+T> = None | Some(value: T)

  datatype Result<+T, +E> = Ok(value: T) | Err(error: E)

  // The exception classes of src/ganker/errors.py, plus ValueError (argument checks outside the
  // service), RuntimeRaised (any exception that escapes a training runtime) and OsError (what reading or
  // writing a file raises).
  datatype Error = InvalidRequest | NotFound | BackendUnavailable | ValueError | RuntimeRaised | OsError
}
