/** The optional value used for Go's `error` (nil or not) and for pointer-or-nil results. */
module Wrappers {

  datatype Option<+T> = None | Some(value: T)
}
