/** The optional-value datatype used in place of the source's `null`/`undefined`. */
module Wrappers {

  /** `None` stands for a JavaScript `null` or `undefined` (both are falsy in the source's
      `if (x)` tests); `Some(v)` for a present value. */
  datatype Option<+T> = None | Some(value: T)
}
