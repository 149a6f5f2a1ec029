module Options {
  datatype Option<T> = None | Some(value: T)

  /** A value, or the code of the error that took its place. */
  datatype Result<T> = Success(value: T) | Failure(code: string)
}
