/** The optional value used for every field that the Java code leaves `null` until it is assigned. */
module Wrappers {

  datatype Option<+T> = None | Some(value: T)
}
