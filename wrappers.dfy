/** Failure-carrying values. An error is the text Python would produce with
    `str(e)` for the exception that the original code raises. */
module Wrappers {

  datatype Option<+T> = None | Some(value: T)

  /** A call into an external service (or a Python function that may raise):
      it returns a value or raises an exception whose text is `error`. */
  datatype Result<+T> = Success(value: T) | Failure(error: string)

  /** A call whose only interest is whether it raised. */
  datatype Outcome = Pass | Fail(error: string)

}
