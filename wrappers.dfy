/** A value that may be absent, as `T | null` is in the component's state. */
module Wrappers {
  datatype Option<+T> = None | Some(value: T)
}
