/** Shared wrapper types. */
module Base {

  /** A value that may be absent: Ruby's `nil` on one side, a value on the other. */
  datatype Option<+T> = None | Some(value: T)
}
