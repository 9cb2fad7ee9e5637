/** The optional-value datatype the rest of the model uses for TypeScript's
    optional properties (`x?: T`) and for `T | undefined`. */
module Wrappers {

  datatype Option<+T> = None | Some(value: T)
}
