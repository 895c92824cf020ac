/** The optional value used wherever the operator's Go code passes a nil-able pointer. */
module Wrappers {
  datatype Option<+T> = None | Some(value: T)
}
