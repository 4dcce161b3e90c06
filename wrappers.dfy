/** The optional value used wherever the source returns `None` or may leave a name unbound. */
module Wrappers {

  datatype Option<+T> = None | Some(value: T)
}
