/** Failure-compatible wrappers used throughout the model: an optional value
    (Go's nil-or-value) and a value-or-error result (Go's `(T, error)` pair). */
module Results {

  datatype Option<+T> = None | Some(value: T)

  datatype Result<+T, +E> = Success(value: T) | Failure(error: E)
}
