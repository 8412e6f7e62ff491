/** The optional value the router returns where the Java code returns null. */
module Wrappers {

  datatype Option<+T> = None | Some(value: T)
}
