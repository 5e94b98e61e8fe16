// The two failure-aware containers used across the model.
module Wrappers {
  datatype Option<+T> = None | Some(value: T)

  // Python exceptions and Go error returns.
  datatype Result<+T, +E> = Ok(value: T) | Err(error: E)
}
