/** Small failure-carrying datatypes shared by the other modules. */
module Wrappers {

  datatype Option<+T> = None | Some(value: T)

  /** Go's `error` return: either no error, or an error with its message. */
  datatype Outcome = Pass | Fail(message: string)
}
