/** Result types shared by the models. */
module Outcomes {

  datatype Option<+T> = None | Some(value: T)

  /** How one call ends: with a value, with an error the source returns, or because the
      process was stopped between two effects. A stopped call may be made again later. */
  datatype Reply<+T, +E> = Ok(value: T) | Err(error: E) | Stopped {
    predicate IsFailure() {
      !Ok?
    }

    function PropagateFailure<U>(): Reply<U, E>
      requires IsFailure()
    {
      match this
      case Err(e) => Err(e)
      case Stopped => Stopped
    }

    function Extract(): T
      requires Ok?
    {
      value
    }
  }

  /** Whether something goes wrong at this point: anything may, except in a calm run. */
  method Fails(calm: bool) returns (failed: bool)
    ensures calm ==> !failed
  {
    failed := *;
    if calm {
      failed := false;
    }
  }
}
