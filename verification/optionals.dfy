/** A value that may be absent: Java's `null` reference and `java.util.Optional` alike. */
module Optionals {

  datatype Option<+T> = None | Some(value: T)
}
