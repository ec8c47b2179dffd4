/** Optional values and results with an error, shared by the skill and the gadget models. */
module Wrappers {

  /** A value that may be absent (a JavaScript `undefined` attribute, a missing JSON key). */
  datatype Option<+T> = None | Some(value: T)

  /** The outcome of a handler that may raise instead of returning. */
  datatype Result<+R, +E> = Success(value: R) | Failure(error: E)
}
