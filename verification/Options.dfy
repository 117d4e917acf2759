/** A value that may be absent: the NULL results of the C functions. */
module Options {
  datatype Option<+T> = None | Some(value: T)
}
