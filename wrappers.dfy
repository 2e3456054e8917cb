/** Small sum types shared by every module. */
module Wrappers {

  /** A value that may be absent: `null` or `undefined` in TypeScript, NaN for a number. */
  datatype Option<+T> = None | Some(value: T)

  /** The result of a call that may throw: the value it returned, or the message it threw. */
  datatype Outcome<+T> = Ok(value: T) | Raised(error: string)
}
