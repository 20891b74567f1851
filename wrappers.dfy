/** Small wrappers used by the derived-store model. */
module Wrappers {

  /** A value that may be absent: JavaScript's `null` in `T | null`. */
  datatype Option<+T> = None | Some(value: T)

  /** The outcome of an operation that returns nothing or throws an error with a message. */
  datatype Outcome = Pass | Fail(message: string)
}
