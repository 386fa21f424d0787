/** Swift's optional values (`T?`). */
module Wrappers {

  datatype Option<+T> = None | Some(value: T)
}
