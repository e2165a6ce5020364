/** Shared value types. */
module Base {

  datatype Option<+T> = None | Some(value: T)

  /** The outcome of a step that can fail with an error text. */
  datatype Result<+T> = Success(value: T) | Failure(msg: string)
}
