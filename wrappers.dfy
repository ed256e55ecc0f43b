/** The absent-or-present result used wherever the Java code returns or accepts null. */
module Wrappers {

  /** `None` stands for Java's `null`; `Some(v)` for a reference to `v`. */
  datatype Option<+T> = None | Some(value: T)
}
