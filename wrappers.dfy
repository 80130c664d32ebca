/** The optional-value type used throughout the model, standing for TypeScript's `T | undefined`. */
module Wrappers {
  datatype Option<+T> = None | Some(value: T)
}
