/** The optional value used for "maybe a command this frame" and partial lookups. */
module Wrappers {

  datatype Option<+T> = None | Some(value: T)
}
