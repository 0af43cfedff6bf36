/** Java's nullable references, written as an explicit option. */
module Wrappers {

  /** None stands for Java's null. */
  datatype Option<+T> = None | Some(value: T)
}
