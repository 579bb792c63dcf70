/** The conventional Some/None datatype, used where the component holds a
    nullable value or an asynchronous call may fail. */
module Wrappers {

  datatype Option<+T> = None | Some(value: T)
}
