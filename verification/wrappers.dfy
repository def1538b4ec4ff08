/** Option: the Python `None` a lookup such as `get_or_none` may answer. */
module Wrappers {

  datatype Option<+T> = None | Some(value: T)
}
