/** Go's nil-able references (pointers, interface values) as an optional value. */
module Nullable {
  datatype Option<+T> = None | Some(value: T)
}
