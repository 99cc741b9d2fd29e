/** The optional value used for outcomes that may be missing: a price lookup
    that failed, a P/E cell that does not parse, a percentage whose base is zero. */
module Wrappers {

  datatype Option<+T> = None | Some(value: T)
}
