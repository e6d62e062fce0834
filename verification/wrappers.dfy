/** PHP's `null` next to a value: the nullable strings, tokens and objects of the plugin. */
module Wrappers {

  /** `None` stands for PHP `NULL` (or `FALSE` where the source uses it as "no value"). */
  datatype Option<+T> = None | Some(value: T)
}
