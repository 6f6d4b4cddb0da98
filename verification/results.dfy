/**
  Optional values and success/failure results shared by every module of the model.
  JavaScript's `undefined`/`null` fields become `None`; thrown errors and
  `{ success: false }` returns become `Failure`.
 */
module Results {

  datatype Option<+T> = None | Some(value: T) {

    /** The value, or `default` when absent (JavaScript's `x ?? default`). */
    function GetOr(default: T): T {
      match this
      case Some(v) => v
      case None => default
    }
  }

  datatype Result<+R, +E> = Success(value: R) | Failure(error: E) {

    predicate IsFailure() {
      Failure?
    }
  }
}
