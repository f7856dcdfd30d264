/** The two result shapes every other module of the project uses. */
module Options {
  datatype Option<+T> = None | Some(value: T)

  /** A value, or the exception the original raises (kept only as a tag). */
  datatype Result<+T> = Ok(value: T) | Raised(reason: Reason)

  datatype Reason =
    | StaleOwner
    | Conflict
    | RuntimeFault
    | InvalidValue
    | UnknownKey
    | BoundExceeded
}
