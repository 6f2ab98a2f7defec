/** Optional values, used for lookups that may miss and decoders that may fail. */
module Wrappers {

  datatype Option<+T> = None | Some(value: T)
}
