/** The optional value the model uses where the tool's code either produces a
    value or does not (a failed conversion, a missed lookup, an exhausted scan). */
module Wrappers {
  datatype Option<+T> = None | Some(value: T)
}
