/** An optional value, and the absence of one. */
module Options {
  datatype Option<+T> = None | Some(value: T)
}
