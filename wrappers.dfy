/** Optional values: `undefined`/`null` in the component's state and in parsed replies. */
module Wrappers {

  datatype Option<+T> = None | Some(value: T)
}
