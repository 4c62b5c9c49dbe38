/** The optional value used for Go's values that may be nil. */
module Options {
  datatype Option<+T> = None | Some(value: T)
}
