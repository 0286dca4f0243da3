/** The optional-value type used throughout the model: Go's nil pointer, nil error
    and "not present" results. */
module Wrappers {

  datatype Option<+T> = None | Some(value: T)
}
