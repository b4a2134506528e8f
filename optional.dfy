/** Optional values and results with an error, used for the nullable
    fields and the exceptions of the modelled Java code. */
module Optional {

  /** A value that may be absent: a protobuf field that was not set, or a
      Java reference that may be null. */
  datatype Option<+T> = None | Some(value: T)

  /** The outcome of an operation that may throw. */
  datatype Result<+T, +E> = Ok(value: T) | Err(error: E)
}
