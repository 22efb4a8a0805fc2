/** Failure-carrying results: the model's stand-in for Python's exceptions
    and for "either a value or nothing" answers. */
module Wrappers {

  datatype Option<+T> = None | Some(value: T)

  /** A value, or the message of the exception that replaced it. */
  datatype Result<+T> = Success(value: T) | Failure(error: string)

  /** Completion of a step that returns nothing: it either ran to the end
      or raised an exception with the given message. */
  datatype Outcome = Pass | Fail(error: string)
}
