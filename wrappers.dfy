/** An optional value: the model's stand-in for a configuration field or
    setter argument that may be `undefined`. */
module Wrappers {

  datatype Option<+T> = None | Some(value: T)
}
