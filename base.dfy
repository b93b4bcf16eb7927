/** Values shared by every part of the model: the Python exceptions the core
    can raise, and the Option/Result wrappers that carry them. */
module Base {

  datatype Option<+T> = None | Some(value: T)

  /** A computation that either returns a value or raises a Python exception. */
  datatype Result<+T, +E> = Success(value: T) | Failure(error: E) {
    predicate IsFailure() { Failure? }

    function PropagateFailure<U>(): Result<U, E>
      requires Failure?
    {
      Failure(error)
    }

    function Extract(): T
      requires Success?
    {
      value
    }
  }

  /** The exceptions raised by the modelled code, with the data that identifies them. */
  datatype PyError =
    | KeyError(key: string)                      // a dict lookup of a missing key
    | IntLiteralError(literal: string)           // int() of a string that is not a decimal integer
    | UnpackError(expected: nat, got: nat)       // a, b, c = <too short a list>
    | TypeError(message: string)
    | UnboundLocalError(name: string)            // a local read before any assignment
    | IndexError(message: string)

  /** A Python dict whose keys and values are strings (every row the core builds). */
  type Row = map<string, string>
}
