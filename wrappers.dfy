/** The optional value used for a lookup that may find nothing and for a
    document field that may hold no value. */
module Wrappers {

  datatype Option<+T> = None | Some(value: T)
}
