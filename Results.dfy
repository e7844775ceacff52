/** Optional values and results with an error message, standing in for
    `null` and for a thrown `ArgumentException`. */
module Results {

  datatype Option<T> = None | Some(value: T)

  /** `Failure` carries the exception's message. */
  datatype Result<T> = Success(value: T) | Failure(error: string)
}
