/** A minimal Option type standing in for Java's nullable references. */
module Wrappers {

  /** None plays the role of a Java `null`; Some carries a present value. */
  datatype Option<+T> = None | Some(value: T)
}
