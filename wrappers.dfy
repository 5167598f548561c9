/** Optional values and error results, for JavaScript's `null`/`NaN` and for the
    rejections the game reports to the player. */
module Wrappers {

  datatype Option<+T> = None | Some(value: T)

  datatype Result<+R, +E> = Success(value: R) | Failure(error: E)

  /** The outcome of an action that either happens or is refused with a reason. */
  datatype Outcome<+E> = Pass | Fail(error: E)
}
