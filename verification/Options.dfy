/** A value that may be absent. */
module Options {
  datatype Option<+T> = None | Some(value: T)
}

/** The outcome of an operation that may be refused. */
module Results {
  datatype Result<+T> = Ok(value: T) | Refused
}
