/** Optional values: `None` stands for a Java `null` reference or a failed parse. */
module Wrappers {

  datatype Option<+T> = None | Some(value: T)
}
