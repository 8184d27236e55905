/** Optional values: `undefined`/`null` and failed lookups or parses. */
module Wrappers {
  datatype Option<+T> = None | Some(value: T)
}
