/** Nullable values and fallible results, shared by every module of the model. */
module Wrappers {

  /** A Kotlin nullable `T?`: `None` stands for `null`. */
  datatype Option<+T> = None | Some(value: T) {
    /** `this ?: default` */
    function GetOr(default: T): T {
      match this
      case Some(v) => v
      case None => default
    }
  }

  /** The outcome of an operation that may throw: `Failure` carries what was thrown. */
  datatype Result<+R, +E> = Success(value: R) | Failure(error: E)
}
