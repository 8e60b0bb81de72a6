/** Optional values and error-carrying results, used for "no such key",
    "not a command" and the fatal configuration error. */
module Options {

  datatype Option<+T> = None | Some(value: T)

  datatype Result<+T, +E> = Success(value: T) | Failure(error: E)
}
