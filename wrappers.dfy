/** Failure-carrying values shared by the whole model. */
module Wrappers {

  /** A value that may be missing; `None` is what Rust's `checked_*` operations return on failure. */
  datatype Option<+T> = None | Some(value: T)

  /** Success without a value, or failure with an error; the shape of Anchor's `Result<()>`. */
  datatype Outcome<+E> = Pass | Fail(error: E)
}
