/** The two failure-compatible wrappers the parser needs: `Option` for the
    value `parse` hands back (present tree or the absent result that stands
    for Java's `null`) and `Result` for the tier routines, whose `Failure`
    plays the role of the thrown `ParseException`. */
module Wrappers {

  datatype Option<+T> = None | Some(value: T)

  datatype Result<+R, +E> = Success(value: R) | Failure(error: E) {

    predicate IsFailure() {
      Failure?
    }

    function PropagateFailure<U>(): Result<U, E>
      requires Failure?
    {
      Failure(error)
    }

    function Extract(): R
      requires Success?
    {
      value
    }
  }
}
