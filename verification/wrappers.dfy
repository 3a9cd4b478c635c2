/** The optional value `get_product_info` returns. */
module Wrappers {

  /** A catalog answer: a row, or nothing (Python's `None`). */
  datatype Option<+T> = None | Some(value: T)
}
