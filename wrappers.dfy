/** Option, Result and Outcome: how the model writes a C# null and a thrown exception. */
module Wrappers {

  /** A value that may be absent (a C# null reference or a missing dictionary entry). */
  datatype Option<+T> = None | Some(value: T)

  /** A value, or the error that a C# method would have thrown instead of returning it. */
  datatype Result<+R, +E> = Success(value: R) | Failure(error: E)

  /** The completion of a void C# method: it returned normally, or it threw `error`. */
  datatype Outcome<+E> = Pass | Fail(error: E)
}
