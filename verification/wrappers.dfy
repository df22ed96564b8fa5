/** The optional value used for the empty CPU slot, the idle I/O device and
    results that may be absent. */
module Wrappers {

  datatype Option<+T> = None | Some(value: T)
}
