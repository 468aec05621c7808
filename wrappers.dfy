/** Option and Result values for the source's null checks, thrown errors and error replies. */
module Wrappers {

  datatype Option<+T> = None | Some(value: T)

  /** `Err` carries the text of the JavaScript `Error` the source throws. */
  datatype Result<+T> = Ok(value: T) | Err(error: string)
}
