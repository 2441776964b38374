/** The optional value used wherever the Java code may produce `null`. */
module Wrappers {

  datatype Option<+T> = None | Some(value: T)
}
