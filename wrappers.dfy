/** Optional values: the source's `T | null` state fields and absent event payloads. */
module Wrappers {

  datatype Option<+T> = None | Some(value: T)
}
