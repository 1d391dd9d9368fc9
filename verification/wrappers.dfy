/** The conventional optional value: a pending operator that may be absent,
    a parse that may fail, an alert that may or may not be raised. */
module Wrappers {

  datatype Option<+T> = None | Some(value: T)

}
