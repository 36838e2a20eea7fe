/** The error-path wrappers the rest of the model uses. */
module Wrappers {

  /** A value that may be absent: JavaScript's `null`/`undefined` against a present value. */
  datatype Option<+T> = None | Some(value: T)

  /** A value, or the message of the Error a JavaScript function throws instead of returning. */
  datatype Result<+T> = Ok(value: T) | Throws(message: string)
}
