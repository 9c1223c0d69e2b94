/** Failure-carrying values shared by the other modules. */
module Outcomes {

  /** An optional value: JavaScript's `undefined`/`null` versus a present value. */
  datatype Option<T> = None | Some(value: T)

  /** The value of an operation that may throw instead of returning. */
  datatype Result<T, E> = Ok(value: T) | Err(error: E)
}
