/** Failure-carrying wrappers shared by the trainer and the form modules. */
module Wrappers {

  /** `None` stands for an absent value: a missing dictionary key, or NaN from a number parse. */
  datatype Option<+T> = None | Some(value: T)

  /** The outcome of an operation that either returns a value or raises. */
  datatype Result<+T, +E> = Ok(value: T) | Err(error: E)
}
