/** A value that may be absent, used for the source's error results and missing fields. */
module Wrappers {

  datatype Option<+T> = None | Some(value: T)

}
