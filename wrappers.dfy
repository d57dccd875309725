/** The `null`-or-value idiom of the source, written as an option type. */
module Wrappers {

  /** `None` plays the part of `null` (or of a key that an object literal leaves out). */
  datatype Option<+T> = None | Some(value: T)
}
