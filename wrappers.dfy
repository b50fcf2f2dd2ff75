/** Optional values: JavaScript's `null`/`undefined` (an absent field or an empty slot) is None. */
module Wrappers {

  datatype Option<+T> = None | Some(value: T)

  /** The outcome of one awaited platform call: its value, or the message of the error it threw. */
  datatype Attempt<+T> = Got(value: T) | Failed(message: string)

  /** The outcome of an awaited platform call that yields nothing. */
  datatype Step = Done | Threw(message: string)
}
