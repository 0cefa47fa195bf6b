/** A value that may be absent: a nil pointer, a missing row, an error return. */
module Options {
  datatype Option<T> = None | Some(value: T)
}
