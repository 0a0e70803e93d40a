/** Optional values and success-or-error outcomes, used wherever the source
    has `null`, `undefined` or a caught exception. */
module Wrappers {

  datatype Option<+T> = None | Some(value: T)

  /** `Ok(value)` or `Err(message)`, where `message` is the `.message` of the
      error an external call threw. */
  datatype Result<+T> = Ok(value: T) | Err(message: string)
}
