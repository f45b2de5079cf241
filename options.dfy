/** A value that may be absent: an unset request header or body field, a
    transaction without time bounds, a decode that failed. */
module Options {
  datatype Option<+T> = None | Some(value: T)
}
