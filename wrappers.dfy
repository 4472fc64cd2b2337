/** A reading that may be absent, as a browser property that is `undefined`. */
module Wrappers {

  datatype Option<+T> = None | Some(value: T)
}
