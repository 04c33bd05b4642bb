/** Optional values: the calculator's inputs after parsing, where a value that
    does not parse as a number is absent. */
module Wrappers {

  datatype Option<+T> = None | Some(value: T)
}
