/** Small helper datatype shared by the calibration and channel-table modules. */
module Wrappers {

  /** A value that may be absent (a driver that has not been sent anything yet, a slot outside the table). */
  datatype Option<+T> = None | Some(value: T)
}
