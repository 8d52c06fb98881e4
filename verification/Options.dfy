/** The optional values that the Python sources write as a missing key or None. */
module Options {
  datatype Option<+T> = None | Some(value: T)
}
