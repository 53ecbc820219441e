/** Small value types shared by every module of the model. */
module Wrappers {
  /** A value that may be absent (`undefined` or `null` in the engine). */
  datatype Option<T> = None | Some(value: T)

  /** How an operation of the engine ended: normally, or by throwing the given message. */
  datatype Outcome = Done | Threw(message: string)
}
