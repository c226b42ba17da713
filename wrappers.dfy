/** Python's `None` and present values, for the record's unset fields and the cache lookups. */
module Wrappers {

  datatype Option<+T> = None | Some(value: T)
}
