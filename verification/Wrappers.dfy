/** Small datatypes shared by every component. */
module Wrappers {
  datatype Option<+T> = None | Some(value: T)

  datatype Result<+T, +E> = Ok(value: T) | Err(error: E)

  /** Two places of the source do the opposite of what their comments say.  `AsWritten` is the code,
      `AsDocumented` is what the comments promise; theorems hold for both unless they name one. */
  datatype Reading = AsWritten | AsDocumented
}
