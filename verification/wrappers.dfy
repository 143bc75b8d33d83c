/** Option, the model's stand-in for Kotlin's `T?` and Swift's `Optional<T>`. */
module Wrappers {

  datatype Option<+T> = None | Some(value: T) {

    /** Returns the wrapped value, or `default` when absent (Kotlin `?:`, Swift `??`). */
    function GetOr(default: T): T {
      match this
      case Some(v) => v
      case None => default
    }
  }
}
