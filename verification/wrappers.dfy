/** The Option datatype used for absent values and for the error a gather returns. */
module Wrappers {

  datatype Option<+T> = None | Some(value: T)
}
