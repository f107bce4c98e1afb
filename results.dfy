/** Failure-compatible result types used for the Go `error` returns. */
module Results {

  datatype Option<+T> = None | Some(value: T)

  /** What a Go function returning only `error` gives back: nil (`Pass`) or an error. */
  datatype Outcome<+E> = Pass | Fail(error: E)

  /** What a Go function returning `(*T, error)` gives back. */
  datatype Result<+T, +E> = Success(value: T) | Failure(error: E)
}
