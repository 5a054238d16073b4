/** Small optional-value type used for the operator's optional parameters. */
module Wrappers {

  /** A value that may be absent, as a Python parameter defaulting to `None`. */
  datatype Option<+T> = None | Some(value: T)
}
