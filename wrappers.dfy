/** Optional values and success/failure results, the two wrappers the
    test-double core passes around (Swift's `Optional` and `Result`). */
module Wrappers {

  datatype Option<+T> = None | Some(value: T)

  datatype Result<+R, +E> = Success(value: R) | Failure(error: E) {

    /** Swift's `Result.flatMap`: run `next` only when this result succeeded. */
    function Then<U>(next: R -> Result<U, E>): (r: Result<U, E>)
      ensures Failure? ==> r == Failure(error)
    {
      match this
      case Success(v) => next(v)
      case Failure(e) => Failure(e)
    }
  }
}
