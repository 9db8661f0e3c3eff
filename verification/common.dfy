/** Option and Result values shared by every module of the model. */
module Common {

  /** A value that may be absent (`null`/`undefined` in the application). */
  datatype Option<T> = None | Some(value: T)

  /** The outcome of an operation that either yields a value or fails with an error. */
  datatype Result<T, E> = Ok(value: T) | Err(error: E)
}
