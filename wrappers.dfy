/** The Java code signals "no value" with null; the model uses Option. */
module Wrappers {

  datatype Option<+T> = None | Some(value: T)
}
