/** The absence-of-value wrapper used for a child's exit code (JavaScript's
    `null`) and for its terminating signal. */
module Wrappers {

  datatype Option<+T> = None | Some(value: T)
}
