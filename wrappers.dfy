/** The optional value used wherever the loader or the server may have "nothing". */
module Wrappers {

  datatype Option<+T> = None | Some(value: T)
}
