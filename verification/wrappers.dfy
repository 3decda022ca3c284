/** Failure-compatible datatypes shared by every module of the model.

    The modelled program is written in Python and JavaScript, where failures are
    exceptions. Each exception the program can raise on a modelled path becomes an
    `Err` carrying the Python (or JavaScript) exception class and its message.
 */
module Wrappers {

  /** Python's `None` / JavaScript's `undefined` next to a present value. */
  datatype Option<+T> = None | Some(value: T) {

    /** The value, or `default` when absent. */
    function GetOr(default: T): T {
      match this
      case Some(v) => v
      case None => default
    }
  }

  /** The exception classes raised on the modelled paths. */
  datatype Error =
    | ValueError(msg: string)
    | KeyError(key: string)
    | IndexError(msg: string)
    | AttributeError(msg: string)
    | TypeError(msg: string)
    | NotImplementedError(msg: string)
    | UnboundLocalError(name: string)
      /** A failure raised by a foreign service: a completion, embedding or network call. */
    | ServiceError(msg: string)

  /** A value or the exception that replaced it. */
  datatype Result<+T> = Ok(value: T) | Err(error: Error) {

    predicate IsFailure() {
      Err?
    }

    function PropagateFailure<U>(): Result<U>
      requires Err?
    {
      Err(error)
    }

    function Extract(): T
      requires Ok?
    {
      value
    }
  }

  /** Python's `value or default` on an optional string: `None` and `""` are falsy. */
  function OrElse(value: Option<string>, default: string): (r: string)
    ensures value.None? || value == Some("") ==> r == default
    ensures value.Some? && value.value != "" ==> r == value.value
    ensures r != "" || default == ""
  {
    if value.None? || value.value == "" then default else value.value
  }
}
