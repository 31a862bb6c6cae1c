/** The optional value used for "no key matched" and "no number found". */
module Wrappers {

  datatype Option<+T> = None | Some(value: T)
}
