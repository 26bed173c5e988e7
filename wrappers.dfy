/** Option and Result values for the nullable bodies and the thrown exceptions of the app. */
module Wrappers {

  /** A Kotlin nullable value: `None` stands for `null`. */
  datatype Option<+T> = None | Some(value: T) {

    /** Kotlin's elvis operator `x ?: default`. */
    function GetOr(default: T): T
    {
      match this
      case Some(v) => v
      case None => default
    }
  }

  /** The outcome of a step that may throw. */
  datatype Result<+R, +E> = Success(value: R) | Failure(error: E)
}
