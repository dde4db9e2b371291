/** Optional values: the model's stand-in for a JavaScript property that is
    either present or `undefined`. */
module Wrappers {

  datatype Option<+T> = None | Some(value: T)
}
