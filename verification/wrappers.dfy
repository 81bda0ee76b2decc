/** Failure-compatible datatypes shared by the whole model.

    Python signals failure by raising; the model returns a `Result` whose
    `Failure` carries the kind of exception that would have escaped.  Both
    `Option` and `Result` can be used with `:-`.
 */
module Wrappers {

  /** Python's `None` versus a present value. */
  datatype Option<+T> = None | Some(value: T) {

    predicate IsFailure() {
      None?
    }

    function PropagateFailure<U>(): Option<U>
      requires None?
    {
      None
    }

    function Extract(): T
      requires Some?
    {
      value
    }

    /** The value, or `default` when absent (Python's `x or default` on an optional). */
    function GetOr(default: T): T {
      match this
      case Some(v) => v
      case None => default
    }
  }

  /** The exceptions the modelled code raises or lets escape. */
  datatype Error =
    | IndexError
    | KeyError
    | ValueError
    | TypeError
    | AttributeError
    | NoSuchElement
    | RecursionError
    /** A number too large for the clock, as `time.sleep(float("inf"))`. */
    | OverflowError
    | UnboundLocal
    /** A command label that names no command handler of the executor. */
    | UnknownCommand(command: string)
    /** The generic `Exception` re-raised by the machine's file operations. */
    | GenericException

  /** A value, or the exception that ended the computation. */
  datatype Result<+R> = Success(value: R) | Failure(error: Error) {

    predicate IsFailure() {
      Failure?
    }

    function PropagateFailure<U>(): Result<U>
      requires Failure?
    {
      Failure(error)
    }

    function Extract(): R
      requires Success?
    {
      value
    }
  }

  /** An `Option` as a `Result`, failing with `e` when absent. */
  function Need<T>(o: Option<T>, e: Error): (r: Result<T>)
    ensures r.Success? <==> o.Some?
    ensures r.Success? ==> r.value == o.value
    ensures r.Failure? ==> r.error == e
  {
    match o
    case Some(v) => Success(v)
    case None => Failure(e)
  }
}
