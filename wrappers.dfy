/** Option and Result, the two failure-carrying types the model uses for Swift's
    optionals and for Swift's `Result<Success, Failure>`. */
module Wrappers {

  datatype Option<+T> = None | Some(value: T) {
    /** Swift's `??`: the wrapped value, or `default` when there is none. */
    function GetOr(default: T): T {
      match this
      case Some(v) => v
      case None => default
    }
  }

  datatype Result<+T, +E> = Success(value: T) | Failure(error: E) {
    /** Combine's `mapError`: rewrites the failure, keeps the success. */
    function MapError<F>(f: E -> F): Result<T, F> {
      match this
      case Success(v) => Success(v)
      case Failure(e) => Failure(f(e))
    }
  }
}
