/** An optional value, for nullable columns and pointers. */
module Options {
  datatype Option<+T> = None | Some(value: T)
}
