// Optional values, for the source's `null`/absent cases.

module Wrappers {

  datatype Option<+T> = None | Some(value: T)
}
