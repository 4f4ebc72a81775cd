/** Small value wrappers shared by the model. */
module Wrappers {

  /** A value that may be absent: `undefined` or `null` in JavaScript. */
  datatype Option<+T> = None | Some(value: T)

  /** The single result an HTTP call hands to its subscriber: the payload, or the error callback. */
  datatype Response<+T> = Succeeded(value: T) | Failed
}
