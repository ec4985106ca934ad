/** Failure-compatible wrappers used across the model: `None` stands for a
    JavaScript `null`/`undefined`, `Failure`/`Fail` for a thrown error. */
module Wrappers {

  datatype Option<+T> = None | Some(value: T)

  datatype Result<+T, +E> = Success(value: T) | Failure(error: E)

  datatype Outcome<+E> = Pass | Fail(error: E)
}
