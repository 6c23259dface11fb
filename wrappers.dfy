/** Option and Result: the "maybe absent" and "may fail" values of the application
    (an `undefined` lookup, a rejected promise). */
module Wrappers {

  datatype Option<+T> = None | Some(value: T)

  /** The error side carries the message of the rejected promise. */
  datatype Result<+T> = Ok(value: T) | Err(error: string)
}
