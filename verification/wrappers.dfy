/** Failure-carrying wrappers shared by the scoring modules. */
module Wrappers {

  /** A value that may be absent, e.g. the tier of a total outside every range. */
  datatype Option<+T> = None | Some(value: T)

  /** Either a computed value or the reason it could not be computed. */
  datatype Result<+R, +E> = Ok(value: R) | Err(error: E)
}
