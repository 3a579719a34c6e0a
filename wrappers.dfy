/** The optional value used for a parsed command argument and for the
    entries of the per-user conversation dictionary that may be absent. */
module Wrappers {

  datatype Option<+T> = None | Some(value: T)

}
