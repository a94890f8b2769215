/** A minimal optional value, used where the source produces no usable result. */
module Wrappers {

  datatype Option<+T> = None | Some(value: T)
}
