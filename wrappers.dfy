/** Optional values: `None` stands for the point where the Python code raises
    (an `IndexError` on a list that is too short). */
module Wrappers {
  datatype Option<+T> = None | Some(value: T)
}
