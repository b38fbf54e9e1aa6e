/** Values that stand for what a call into the messaging platform, the bot
    API or the document store gave back: a value, or the exception it raised. */
module Outcomes {

  /** Python's `None` or a present value. */
  datatype Option<T> = None | Some(value: T)

  /** The answer of a call that returns a value: `Ok(v)`, or `Err(m)` when it
      raised an exception whose text is `m`. */
  datatype Outcome<T> = Ok(value: T) | Err(msg: string)

  /** The answer of a call whose return value is not used. */
  datatype Status = Done | Raised(msg: string)
}
