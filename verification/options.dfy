/** Optional values and error-carrying results shared by the other modules. */
module Options {

  /** A value that may be absent (Ruby's `nil`). */
  datatype Option<+T> = None | Some(value: T)

  /** Either a value or the error that prevented computing it. */
  datatype Result<+T, +E> = Success(value: T) | Failure(error: E)

}
