/** An answer that may be missing: Go's nil result. */
module Options {
  datatype Option<+T> = None | Some(value: T)
}
