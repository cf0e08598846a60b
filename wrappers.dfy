/** Optional values (Python's `None` beside a value) and results that carry
    either a value or the text of the exception that was raised instead. */
module Wrappers {

  datatype Option<+T> = None | Some(value: T)

  datatype Result<+T> = Ok(value: T) | Err(error: string)
}
