/** Small shared wrapper types. */
module Common {

  /** A value that may be absent (Go's nil interface or nil pointer). */
  datatype Option<+T> = None | Some(value: T)
}
