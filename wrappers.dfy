/** Failure-carrying datatypes used to model thrown errors and undefined values. */
module Wrappers {

  /** A value that may be absent (TypeScript's `T | undefined`). */
  datatype Option<+T> = None | Some(value: T)

  /** The outcome of a call that either yields a value or throws an error. */
  datatype Result<+T, +E> = Success(value: T) | Failure(error: E) {
    /** The value, or `None` when the call threw. */
    function ToOption(): (o: Option<T>)
      ensures o.Some? <==> Success?
      ensures o.Some? ==> o.value == value
    {
      match this
      case Success(v) => Some(v)
      case Failure(_) => None
    }
  }

  /** The outcome of a call that returns nothing or throws an error. */
  datatype Outcome<+E> = Pass | Fail(error: E)
}
