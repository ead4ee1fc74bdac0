/** Optional values and success-or-error results, as used by the configuration loader. */
module Results {

  /** A value that may be absent: the outcome of a lookup or of a parse that can fail. */
  datatype Option<+T> = None | Some(value: T)

  /**
   * Either a value or an error: the Go idiom of returning `(value, err)` with exactly one of
   * them set. Usable with `:-`, which returns the error to the caller at once.
   */
  datatype Result<+R, +E> = Success(value: R) | Failure(error: E) {
    predicate IsFailure() {
      Failure?
    }

    function PropagateFailure<U>(): Result<U, E>
      requires Failure?
    {
      Failure(error)
    }

    function Extract(): R
      requires Success?
    {
      value
    }
  }
}
