/** An optional value: `None` stands for JavaScript's `null` or `NaN`, depending on the use. */
module Wrappers {
  datatype Option<+T> = None | Some(value: T)
}
