/** Kotlin's nullable values (`T?`): `None` stands for `null`. */
module Wrappers {
  datatype Option<+T> = None | Some(value: T)
}
