/** Optional values and results: the model's stand-ins for java.util.Optional
    and for a constructor that may throw. */
module Wrappers {

  /** An optional value; `None` is `Optional.empty()` or, for a reference
      argument, `null`. */
  datatype Option<+T> = None | Some(value: T)

  /** Either a value or the error that prevented it. */
  datatype Result<+R, +E> = Success(value: R) | Failure(error: E)
}
