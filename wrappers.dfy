/** Optional values and outcomes of the external calls the bot makes. */
module Wrappers {

  datatype Option<+T> = None | Some(value: T)

  /** A call that yields a value, or fails with the description the library reports. */
  datatype Result<+T> = Ok(value: T) | Err(error: string)

  /** A call that yields nothing, or fails with a description. */
  datatype Status = Done | Failed(description: string)
}
