/** Optional values and fallible results, used where the JavaScript code has
    `undefined` fields or throws. */
module Maybe {

  /** A value that may be absent (`undefined` in the source). */
  datatype Option<+T> = None | Some(value: T)

  /** The outcome of an operation that may throw: the value, or the error message. */
  datatype Result<+T> = Ok(value: T) | Err(message: string)
}
