/** A value that may be absent: a nullable column, a lookup that may find nothing. */
module Options {
  datatype Option<+T> = None | Some(value: T)
}
