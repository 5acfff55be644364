/** Optional values, standing in for the nullable shared handles and the
    "not yet received" state of a subsystem input. */
module Wrappers {

  datatype Option<+T> = None | Some(value: T)

}
