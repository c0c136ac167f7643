/** Failure-carrying values shared by every module of the model. */
module Results {

  /** A nullable reference: `None` stands for Java's or Python's null. */
  datatype Option<+T> = None | Some(value: T)

  /** The outcome of an operation that raises an exception in the source. */
  datatype Result<+T, +E> = Ok(value: T) | Err(error: E)
}
