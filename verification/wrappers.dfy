/** The nullable columns of the database and the answers that may be absent. */
module Wrappers {
  datatype Option<+T> = None | Some(value: T)
}
