/** The optional value used for results an external collaborator may fail to produce. */
module Wrappers {

  datatype Option<+T> = None | Some(value: T)
}
