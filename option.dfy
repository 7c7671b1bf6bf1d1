/** A value that may be absent: a null pointer or a missing map entry. */
module Optional {
  datatype Option<T> = None | Some(value: T)
}
