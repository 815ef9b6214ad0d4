/** Option and Result, the two failure-carrying shapes the model uses for
    JavaScript's `null`/`undefined` and for a thrown `Error`. */
module Wrappers {

  /** `None` stands for JavaScript's `null` or `undefined`. */
  datatype Option<+T> = None | Some(value: T)

  /** `Err(message)` stands for a thrown `Error` whose `message` is `message`. */
  datatype Result<+T> = Ok(value: T) | Err(message: string)
}
