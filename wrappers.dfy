/** Option type standing for values the source may fail to produce (a panic). */
module Wrappers {
  datatype Option<+T> = None | Some(value: T)
}
