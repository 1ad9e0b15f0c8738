/** Outcomes of the calls the component makes into code it does not own. */
module Wrappers {

  /** A value that may be absent: TypeScript's `T | null`. */
  datatype Option<+T> = None | Some(value: T)

  /** A call that either returns a value or throws an error carrying a message
      (the message may be empty, which the component treats as missing). */
  datatype Result<+T> = Success(value: T) | Failure(error: string)

  /** A call that returns nothing useful on success, or throws with a message. */
  datatype Outcome = Pass | Fail(error: string)
}
