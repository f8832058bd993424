/** The optional value used wherever the Java code admits `null`. */
module Wrappers {

  datatype Option<+T> = None | Some(value: T)
}
