/** Option and Result: the absent value and the thrown exception of the JavaScript source. */
module Common {

  datatype Option<+T> = None | Some(value: T)

  /** Ok(value), or Err(message) standing for an exception carrying `message`. */
  datatype Result<+T> = Ok(value: T) | Err(error: string)

  /** An 8-bit unsigned value, the element of a Node.js Buffer. */
  type Byte = x: int | 0 <= x < 256
}
