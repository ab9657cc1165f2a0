/** An optional value: a lookup that may find nothing, a pointer that may be null. */
module Options {
  datatype Option<T> = None | Some(value: T)
}
