/** Optional values, shared by the file-slot and request-gate models. */
module Wrappers {
  datatype Option<+T> = None | Some(value: T)
}
