/** Failure-carrying values used where the simulator's Python code would
    raise `ZeroDivisionError`. */
module Wrappers {

  /** `None` stands for a computation that raised instead of returning. */
  datatype Option<+T> = None | Some(value: T)
}
