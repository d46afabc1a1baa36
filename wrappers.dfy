/** The optional values that stand for Java's nullable references. */
module Wrappers {
  datatype Option<+T> = None | Some(value: T)
}
