/** Option and Result, the value-level stand-ins for Python's `None` and for
    raised exceptions. */
module Wrappers {

  /** `None` or a value; in this model also a JSON field that may be null or absent. */
  datatype Option<+T> = None | Some(value: T)

  /** The outcome of a call that may raise: `Err` carries `str(e)` of the exception. */
  datatype Result<+T> = Ok(value: T) | Err(msg: string)
}
