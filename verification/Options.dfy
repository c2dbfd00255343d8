/** A value that may be absent: the source's `Optional`. */
module Options {
  datatype Option<+T> = None | Some(value: T)
}
