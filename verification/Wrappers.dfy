/** Result types shared by every use case. */
module Wrappers {
  datatype Option<+T> = None | Some(value: T)

  /** What a use case throws: a missing row, a refused command, or a database constraint. */
  datatype Error = NotFound | Conflict | Constraint

  datatype Result<+T> = Ok(value: T) | Err(error: Error)
}
