/** The optional value used wherever the pages hold `T | null` state. */
module Wrappers {

  datatype Option<+T> = None | Some(value: T)
}
