/** Optional values and the outcome of a call into a foreign service. */
module Wrappers {

  /** A value that may be absent (JavaScript `undefined` / `null`). */
  datatype Option<+T> = None | Some(value: T)

  /** The outcome of a call into a library the model does not contain:
      it returned a value, or it threw an error carrying `message`. */
  datatype Result<+T> = Success(value: T) | Failure(message: string)
}
