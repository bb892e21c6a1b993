/** Small failure-carrying datatypes shared by the modules of the model. */
module Wrappers {

  /** A value that may be absent (JavaScript's `null`/`undefined` where only absence matters). */
  datatype Option<T> = None | Some(value: T)

  /** The outcome of a step that may throw: its value, or the message of the error it threw. */
  datatype Attempt<T> = Done(value: T) | Threw(message: string)
}
