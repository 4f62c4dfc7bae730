/** Optional values and error-or-value results.

    The Python services raise exceptions (`ValueError`, `HTTPException`) and the
    TypeScript client throws `Error`s; the model returns a `Result` instead, and
    uses `Option` for the source's `None` / `null` / `undefined`.
 */
module Wrappers {

  datatype Option<+T> = None | Some(value: T) {

    /** The value, or `default` when there is none (Python `x or d` on a
        possibly-missing value, TypeScript `x ?? d`). */
    function GetOr(default: T): T {
      match this
      case Some(v) => v
      case None => default
    }
  }

  /** A computation that either produced a value or failed with an error. */
  datatype Result<+T, +E> = Ok(value: T) | Err(error: E) {

    predicate IsFailure() {
      Err?
    }

    function PropagateFailure<U>(): Result<U, E>
      requires Err?
    {
      Err(error)
    }

    function Extract(): T
      requires Ok?
    {
      value
    }
  }
}
