/** Values that may be missing: unset columns, rows that are not there, inactive timers. */
module Options {

  datatype Option<+T> = None | Some(value: T)
}
