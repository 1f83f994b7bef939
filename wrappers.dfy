/** Option and Result, used for the optional session user, optional fields
    and the error outcomes of the admin panel's handlers. */
module Wrappers {

  datatype Option<+T> = None | Some(value: T)

  datatype Result<+T, +E> = Ok(value: T) | Err(error: E)
}
