/** The outcome of an operation that either produces a value or fails with
    the message of the exception the source raises. */
module Results {
  datatype Result<T> = Success(value: T) | Failure(error: string)
}
