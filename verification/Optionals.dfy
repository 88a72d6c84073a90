/** The one optional value type of the model (Python's `T | None`). */
module Optionals {
  datatype Option<+T> = None | Some(value: T)
}
