/** The optional-value datatype used where a column, a status or a DOM reference may be absent
    (`undefined` or `null` in the dashboard's JavaScript). */
module Wrappers {

  datatype Option<+T> = None | Some(value: T)
}
