/** Failure-compatible result types shared by the model's modules. */
module Wrappers {

  /** An optional value; `None` stands for C#'s null / default(T). */
  datatype Option<+T> = None | Some(value: T)

  /** A value or the error the source would throw instead of returning. */
  datatype Result<+T, +E> = Ok(value: T) | Err(error: E)

  /** Success of a void operation, or the error it throws. */
  datatype Outcome<+E> = Pass | Fail(error: E)
}
