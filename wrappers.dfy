/** The usual optional value, standing for PHP's `false`/`null` results. */
module Wrappers {
  datatype Option<+T> = None | Some(value: T)
}
