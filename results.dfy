/** Failure-carrying return values: absent values and thrown errors become data. */
module Results {

  /** A value that may be absent (the source's `T | null`). */
  datatype Option<+T> = None | Some(value: T)

  /** The outcome of an operation that throws in the source: the value, or the error's message. */
  datatype Result<+T> = Ok(value: T) | Err(message: string)
}
