/** Optional value, used where the program returns `None` or finds no
    match. */
module Wrappers {

  datatype Option<+T> = None | Some(value: T)
}
