/** The optional value used for the page's nullable state (`number | null`, `string | null`, refs). */
module Wrappers {
  datatype Option<+T> = None | Some(value: T)
}
