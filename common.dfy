/** Values shared by every module: optional values, and the exceptions the
    JavaScript program can throw, turned into an explicit error result. */
module Common {

  /** JavaScript's `null`/`undefined` versus a present value. */
  datatype Option<+T> = None | Some(value: T)

  /** The exceptions the program can raise, as values. */
  datatype Error =
    // `throw new Error(...)` after a fetch whose response was not ok
    | HttpError(context: string, status: int, statusText: string)
    // a property read or method call on `null` or `undefined`
    | TypeError(reason: string)
    // the duration probe rejects: the file cannot be read as media
    | ProbeError(path: string)

  /** Either the value a computation returns or the exception it throws. */
  datatype Result<+T> = Ok(value: T) | Err(error: Error) {

    predicate IsFailure() {
      Err?
    }

    function PropagateFailure<U>(): Result<U>
      requires Err?
    {
      Err(error)
    }

    function Extract(): T
      requires Ok?
    {
      value
    }
  }
}
