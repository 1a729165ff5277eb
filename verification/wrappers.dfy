/** The optional value used for `error.code`, which a thrown error may lack. */
module Wrappers {

  datatype Option<+T> = None | Some(value: T)
}
