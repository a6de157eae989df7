/** Failure-compatible results for the planners' exception paths. */
module Wrappers {

  /** The exceptions the modelled C# code can raise. */
  datatype Fault =
    | ArgumentOutOfRange   // a list indexed outside its bounds, or a `switch` over a building type falling into `default: throw`
    | IndexOutOfRange      // an array indexed outside its bounds
    | NullReference        // a member read through a null reference

  /** A reference that may be null. */
  datatype Option<+T> = None | Some(value: T)

  datatype Result<+T> = Success(value: T) | Failure(error: Fault) {
    predicate IsFailure() { Failure? }

    function PropagateFailure<U>(): Result<U>
      requires Failure?
    {
      Failure(error)
    }

    function Extract(): T
      requires Success?
    {
      value
    }
  }
}
