/** Optional values and fallible results, used for PHP's nullable caches and for
    the operations that can raise. */
module Wrappers {

  /** A value that may be absent: PHP's `?T`, with `None` standing for `null`. */
  datatype Option<+T> = None | Some(value: T) {

    /** The value when present, otherwise `default` (PHP's `??`). */
    function GetOr(default: T): T {
      match this
      case Some(v) => v
      case None => default
    }
  }

  /** The outcome of an operation that either returns a value or raises. */
  datatype Result<+R, +E> = Success(value: R) | Failure(error: E)
}
