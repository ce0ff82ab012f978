/** `Option` and `Result`, shared by every module of the model. */
module Wrappers {

  /** A value that may be absent: Kotlin's `T?` and Swift's `Optional<T>`. */
  datatype Option<+T> = None | Some(value: T) {

    /** The wrapped value, or `default` when absent (Swift's `??`). */
    function GetOr(default: T): T {
      match this
      case Some(v) => v
      case None => default
    }
  }

  /** Either a value or the error the source raises instead of returning. */
  datatype Result<+R, +E> = Success(value: R) | Failure(error: E)
}
