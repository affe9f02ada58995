/** Small value types shared by the models. */
module Prelude {
  datatype Option<+T> = None | Some(value: T) {
    function GetOr(default: T): T {
      if Some? then value else default
    }
  }

  /** How one system call ends. `FailedLate` is a call that reports an error after it took effect,
      as a rename whose trailing directory fsync fails does. */
  datatype Fault = NoFault | Refused | FailedLate
}
