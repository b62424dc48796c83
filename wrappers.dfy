/** Failure-compatible helper datatypes shared by the other modules. */
module Wrappers {

  /** A value that may be absent; Go's nil pointers and missing map entries. */
  datatype Option<T> = None | Some(value: T)

  /** The outcome of a step that either yields a value or fails with an error message. */
  datatype Checked<T> = Ok(value: T) | Fail(message: string)
}
