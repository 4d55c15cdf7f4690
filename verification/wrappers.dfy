/** The conventional Some/None datatype, used where the JavaScript code has an
    absent value, an optional lookup or a missing response. */
module Wrappers {

  datatype Option<+T> = None | Some(value: T)
}
