/** Failure-carrying datatypes shared by the rest of the model. */
module Results {

  /** A value that may be absent. */
  datatype Option<+T> = None | Some(value: T)

  /** Either the value an operation produced or the error it stopped with. */
  datatype Result<+T, +E> = Success(value: T) | Failure(error: E)
}
