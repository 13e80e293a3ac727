/** Option and Result datatypes for the error paths of the genetics code. */
module Wrappers {

  datatype Option<+T> = None | Some(value: T)

  /** The ways the modelled operations can fail where the original throws. */
  datatype Error =
    | ArgumentOutOfRange   // a random range whose minimum exceeds its maximum
    | IndexOutOfRange      // a list index outside the list
    | KeyNotFound          // a dictionary lookup of an absent key
    | MissingValue         // a null nullable value cast to its underlying type

  datatype Result<+T> = Success(value: T) | Failure(error: Error)
}
