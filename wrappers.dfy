/** An optional value, used where the program tests for presence with `null` or a missing case. */
module Wrappers {
  datatype Option<+T> = None | Some(value: T)
}
