/** A value that may be missing, for lookups that find nothing and calls that return an error. */
module Options {
  datatype Option<+T> = None | Some(value: T)
}
