/** The optional value the source expresses as `T | null`. */
module Wrappers {

  datatype Option<+T> = None | Some(value: T)
}
