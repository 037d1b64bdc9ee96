/** A value that may be absent: JavaScript's `null`/`undefined` and Python's missing key. */
module Options {
  datatype Option<+T> = None | Some(value: T)
}
