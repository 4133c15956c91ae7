/** A value that may be missing: a URL parameter that is absent, an error state that is null. */
module Wrappers {
  datatype Option<+T> = None | Some(value: T)
}
