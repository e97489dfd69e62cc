/** A value that may be absent: stands for a Java `null` result or a non-finite one. */
module Wrappers {

  datatype Option<+T> = None | Some(value: T)
}
