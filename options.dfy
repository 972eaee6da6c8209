/** The optional value used for request fields that may be absent and for lookups that may miss. */
module Options {
  datatype Option<+T> = None | Some(value: T)
}
