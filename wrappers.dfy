/** The Option and Result datatypes shared by the model. */
module Wrappers {

  /** A value that may be absent: a regular expression that did not compile,
      a rewrite that stopped on such a rule. */
  datatype Option<+T> = None | Some(value: T)

  /** Either a value or an error, as Go's `(value, error)` pairs. */
  datatype Result<+R, +E> = Success(value: R) | Failure(error: E)
}
