/** Failure-carrying values: the model's stand-in for the exceptions the add-on raises. */
module Results {

  datatype Option<+T> = None | Some(value: T)

  datatype Result<+T, +E> = Ok(value: T) | Err(error: E)

  /** The outcome of a builder call that appends text or raises. */
  datatype Outcome<+E> = Pass | Fail(error: E)
}
