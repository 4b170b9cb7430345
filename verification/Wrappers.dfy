/** Optional values, used for the optional members of the submission state
    and for "this item names no key". */
module Wrappers {

  datatype Option<+T> = None | Some(value: T)
}
