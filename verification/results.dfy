/** Optional and erroneous outcomes of the chat code. */
module Results {

  /** A value that may be missing (JavaScript's `undefined`). */
  datatype Option<+T> = None | Some(value: T)

  /** A value, or the message of the error that was thrown instead. */
  datatype Result<+T> = Success(value: T) | Failure(error: string)
}
