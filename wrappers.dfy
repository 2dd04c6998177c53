/** The Option type used for the source's `value | false` and `value | undefined` results. */
module Wrappers {

  datatype Option<+T> = None | Some(value: T)
}
