/** Option and Result, the failure-carrying values used throughout the model.
    A Python function that raises becomes one that returns Failure(e). */
module Wrappers {

  datatype Option<+T> = None | Some(value: T)

  /** The exceptions the backend raises. `ValueError` is raised by the services
      themselves, with the message they use; the other two come from below them. */
  datatype Error =
    | ValueError(msg: string)
      // the store refused the transaction (constraint, type or syntax error) and it was rolled back
    | EngineError
      // an attribute was read through a relationship that was None
    | AttributeError

  datatype Result<+T> = Success(value: T) | Failure(error: Error)
}
