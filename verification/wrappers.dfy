/** Optional values: the `null` / `undefined` of the modelled TypeScript and JavaScript. */
module Wrappers {

  datatype Option<+T> = None | Some(value: T)

}
