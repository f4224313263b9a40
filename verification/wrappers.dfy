/** Optional values and results with an error, used wherever the source
    works with `undefined`/`null` or throws. */
module Wrappers {

  /** A value that may be absent (`undefined` or `null` in the source). */
  datatype Option<+T> = None | Some(value: T) {

    /** The value, or `default` when absent. */
    function GetOr(default: T): T {
      match this
      case Some(v) => v
      case None => default
    }
  }

  /** The outcome of a call that either returns or throws. */
  datatype Result<+T, +E> = Success(value: T) | Failure(error: E) {

    /** The value, or `default` when the call threw (a `.catch(() => default)`). */
    function GetOr(default: T): T {
      match this
      case Success(v) => v
      case Failure(_) => default
    }

    /** Forgets the error (a `try { x = f() } catch { }` that leaves `x` null). */
    function ToOption(): Option<T> {
      match this
      case Success(v) => Some(v)
      case Failure(_) => None
    }
  }
}
