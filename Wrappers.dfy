/** Optional values and results, used for JavaScript's `undefined`/`null` and for thrown errors. */
module Wrappers {

  /** `None` stands for an absent (`undefined` or `null`) value. */
  datatype Option<+T> = None | Some(value: T)

  /** `Failure` carries the message of the error a JavaScript function would throw. */
  datatype Result<+T> = Success(value: T) | Failure(error: string)
}
