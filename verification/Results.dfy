/** Outcomes of operations that the source ends with a return value or a thrown error. */
module Results {

  datatype Option<+T> = None | Some(value: T)

  /** Why an operation refused its input; one constructor per family of thrown errors. */
  datatype Error =
    | OutOfRange
    | UnsupportedMode
    | Paused
    | UnsupportedOperation
    | BackingExceedsCap
    | BoundViolated
    | BindingMismatch
    | ValueMismatch
    | DeadlineExceeded
    | NotEligible
    | DuplicateReference
    | WrongCount
    | OverlappingOutputs
    | InvalidShape
    | InvalidBytes
    | Unsorted
    | TooLarge
    | Unauthorized
    | MissingOutput
    | MissingLineage
    | BrokenContinuity
    | Noncontiguous
    | UnknownPoint
    | Stale
    | BudgetExceeded
    | WrongPhase
    | TipConflict
    | NotConserved
    | Fatal

  /** A check that either passes or names the error it throws. */
  datatype Outcome = Pass | Fail(error: Error) {
    predicate IsFailure() {
      Fail?
    }

    function PropagateFailure<U>(): Result<U>
      requires Fail?
    {
      Err(error)
    }
  }

  datatype Result<+T> = Ok(value: T) | Err(error: Error) {
    predicate IsFailure() {
      Err?
    }

    function PropagateFailure<U>(): Result<U>
      requires Err?
    {
      Err(error)
    }

    function Extract(): T
      requires Ok?
    {
      value
    }
  }

  function Need(condition: bool, error: Error): Outcome {
    if condition then Pass else Fail(error)
  }
}
