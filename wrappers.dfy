/** Optional values, used for "no request was sent" and for partial inverses. */
module Wrappers {

  datatype Option<+T> = None | Some(value: T)

}
