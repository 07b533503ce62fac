/** Failure-aware return types used in place of the bot's exceptions and
    `None` values. */
module Results {

  /** A value that may be absent, such as an unset environment variable. */
  datatype Option<+T> = None | Some(value: T)

  /** Either a computed value or the error an operation raised. */
  datatype Result<+R, +E> = Success(value: R) | Failure(error: E)
}
