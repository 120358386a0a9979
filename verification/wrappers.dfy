/** Optional values: JavaScript's `null` / `undefined` on the model's side. */
module Wrappers {

  datatype Option<+T> = None | Some(value: T)

}
