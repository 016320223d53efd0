/** Results for the operations whose source `panic!`s on some inputs: the
    panic is modelled as an `Err` carrying the panic's message. */
module Outcomes {

  datatype Result<T> = Ok(value: T) | Err(message: string)

  /** The result of an operation that returns nothing when it succeeds. */
  datatype Outcome = Pass | Fail(message: string)

  /** A value that may be absent. */
  datatype Option<T> = None | Some(value: T)
}
