/** Option and Result values standing in for the script's `undefined` and thrown errors. */
module Results {

  datatype Option<+T> = None | Some(value: T)

  /** The outcome of a call that either returns a value or throws. */
  datatype Result<+T, +E> = Success(value: T) | Failure(error: E)
}
