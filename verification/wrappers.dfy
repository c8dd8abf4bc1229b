/** The optional value used wherever the calculator may have nothing to offer:
    a lookup that finds nothing, a number that does not parse, no result yet. */
module Wrappers {

  datatype Option<+T> = None | Some(value: T)
}
