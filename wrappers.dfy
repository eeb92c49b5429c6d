/** The optional value used wherever the source reads something that may be
    missing (an absent map key, a failed call, a JavaScript `undefined`). */
module Wrappers {

  datatype Option<+T> = None | Some(value: T)
}
