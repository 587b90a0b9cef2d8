/** A value that may be absent: JavaScript's undefined/null fields and
    failed lookups. */
module Wrappers {
  datatype Option<+T> = None | Some(value: T)
}
