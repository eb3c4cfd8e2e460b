/** Helper datatypes shared by every module of the model. */
module Wrappers {

  /** A value that may be absent: Java's nullable references. */
  datatype Option<+T> = None | Some(value: T)

  /** An outcome that either carries a value or the reason it could not be produced. */
  datatype Result<+R, +E> = Ok(value: R) | Err(error: E)
}
