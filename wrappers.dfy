/** The failure-compatible Option used by every shape and parsing function:
    `None` stands for the exception the framework or Python raises. */
module Wrappers {

  datatype Option<+T> = None | Some(value: T) {

    predicate IsFailure() {
      None?
    }

    /** Total, so that a failure branch the earlier steps rule out carries
        no proof obligation. */
    function PropagateFailure<U>(): Option<U>
    {
      None
    }

    function Extract(): T
      requires Some?
    {
      value
    }
  }
}
