/** Optional values (TypeScript's `undefined`/`null`) and success-or-error results (thrown errors). */
module Wrappers {

  datatype Option<+T> = None | Some(value: T)

  datatype Result<+R, +E> = Success(value: R) | Failure(error: E)
}
