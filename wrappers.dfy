/** Wrappers shared by the model: optional values (JavaScript `null`/`undefined`)
    and the outcome of an operation that can fail with a message. */
module Wrappers {

  /** A value that may be absent: `null` or `undefined` in the source. */
  datatype Option<+T> = None | Some(value: T)

  /** The outcome of an operation that returns nothing but may throw an error. */
  datatype Outcome<+E> = Pass | Fail(error: E)
}
