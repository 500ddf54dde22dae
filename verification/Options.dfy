/** The optional value used for Go's nil pointers and nil slices. */
module Options {
  datatype Option<+T> = None | Some(value: T)
}
