/** The result shapes the model uses for Go's nil pointers, error returns and appends to a file. */
module Wrappers {
  datatype Option<+T> = None | Some(value: T)

  datatype Result<+T, +E> = Ok(value: T) | Err(error: E)

  /** How an append ends; an error may be reported for a record that is in the file, when only the sync failed. */
  datatype Appended = Done | NotSynced | Failed
}
