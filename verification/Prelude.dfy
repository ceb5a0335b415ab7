/** Shared result types; the errors are the ones the services and the store return. */
module Prelude {

  datatype Option<+T> = None | Some(value: T)

  datatype Error =
    | NotFound
    | VersionConflict
    | DuplicateKey
    | InvalidInput
    | InvalidTransition
    | Forbidden
    | TwoPersonRequired
    | ImmutableState
    | StorageFault

  datatype Result<+T> = Ok(value: T) | Err(error: Error) {
    predicate IsFailure() {
      Err?
    }

    function PropagateFailure<U>(): Result<U>
      requires Err?
    {
      Err(error)
    }

    function Extract(): T
      requires Ok?
    {
      value
    }
  }
}
