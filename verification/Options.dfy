/** The usual optional value, used where the source has a pointer that may be null. */
module Options {
  datatype Option<+T> = None | Some(value: T)
}
