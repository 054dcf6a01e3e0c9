/** Small failure-carrying datatypes shared by the relay and agent models. */
module Wrappers {

  /** A value that may be missing (Go's `value, ok` pairs and nil pointers). */
  datatype Option<+T> = None | Some(value: T)

  /** The result of an operation that returns only a Go `error`: nil is `Pass`. */
  datatype Outcome = Pass | Fail(error: string)
}
