/** A value that may be absent, for Python's `x: T | None` parameters. */
module Wrappers {
  datatype Option<+T> = None | Some(value: T)
}
