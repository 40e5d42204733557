/** Small failure-carrying datatypes shared by every module of the model. */
module Wrappers {

  /** A value that may be absent (Python's `Optional[...]`, `None` being `None`). */
  datatype Option<+T> = None | Some(value: T)

  /** The outcome of a call into the database driver: it returns, or it raises
      an exception whose `str(e)` is `message`. */
  datatype Outcome = Ok | Fail(message: string)
}
