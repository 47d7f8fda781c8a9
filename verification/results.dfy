/**
 * Failure-carrying values: `Option` for "maybe absent", `Result` for an
 * operation that either succeeds or raises one of the program's errors.
 */
module Results {

  datatype Option<+T> = None | Some(value: T)

  datatype Result<+T, +E> = Ok(value: T) | Err(error: E) {

    predicate IsFailure() {
      Err?
    }

    function PropagateFailure<U>(): Result<U, E>
      requires Err?
    {
      Err(error)
    }

    function Extract(): T
      requires Ok?
    {
      value
    }
  }

  /**
   * The two ways construction of a puzzle raises `ValueError`: a sample
   * size outside 0 .. population size, or more cars than roads.
   */
  datatype ValueError = SampleSizeOutOfRange | MoreCarsThanSides
}
