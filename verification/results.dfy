/**
 * Outcomes of the engine's operations: the Python exceptions that the core
 * raises become the error half of a result value.
 */
module Results {

  /** The exceptions the debt engine can raise. */
  datatype Error =
    | ZeroDivision   // `x // len(persons)` with an empty person set
    | ValueError     // a bare string where a collection of persons was expected
    | KeyError       // a person looked up in a dictionary that lacks them
    | WrongBalances  // the RuntimeError of the settlement loop

  datatype Result<T> = Ok(value: T) | Err(error: Error)

  /** The result of an operation that returns nothing but may raise. */
  datatype Outcome = Pass | Fail(error: Error)

  datatype Option<T> = None | Some(value: T)
}
