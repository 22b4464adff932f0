/** A minimal Option, for values the script may or may not produce. */
module Wrappers {
  datatype Option<+T> = None | Some(value: T)
}
