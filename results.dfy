/** Optional values and the outcome of an operation that may throw. */
module Results {

  datatype Option<+T> = None | Some(value: T)

  /** `Failure` stands for an exception raised before any request is sent. */
  datatype Result<+T, +E> = Success(value: T) | Failure(error: E)
}
