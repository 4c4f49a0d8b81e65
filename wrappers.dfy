/** Failure-compatible wrappers shared by the other modules. */
module Wrappers {

  /** An optional value: an absent DOM node, an unset field, a missing store key. */
  datatype Option<+T> = None | Some(value: T)

  /** The outcome of an operation that can be refused with a message. */
  datatype Result<+T> = Ok(value: T) | Err(message: string)
}
