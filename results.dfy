/** Option and Result, the two shapes the model uses for a C# null and for a
    thrown exception (Failure carries the exception's message). */
module Results {

  datatype Option<+T> = None | Some(value: T)

  datatype Result<+R> = Success(value: R) | Failure(error: string)

  /** The outcome of a void C# method that may throw. */
  datatype Outcome = Pass | Fail(error: string)

  /** The Message of an ArgumentException built with a parameter name. */
  function ArgumentMessage(message: string, paramName: string): string {
    message + " (Parameter '" + paramName + "')"
  }
}
