/** The Python exceptions the pipeline can raise, and the failure-compatible
    wrappers that carry them in place of a raise. */
module Exceptions {

  /** Exception kinds raised by the modelled code. */
  datatype Error =
    | KeyError(key: string)       // a dict lookup of a missing key
    | ValueError(text: string)    // strptime or float() rejected `text`
    | TypeError                   // strptime applied to a non-string value

  datatype Option<+T> = None | Some(value: T)

  datatype Result<+T> = Ok(value: T) | Err(error: Error) {
    predicate IsFailure() { Err? }

    function PropagateFailure<U>(): Result<U>
      requires Err?
    {
      Err(error)
    }

    function Extract(): T
      requires Ok?
    {
      value
    }
  }
}
