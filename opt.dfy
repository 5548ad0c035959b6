/** The outcome of building one graph node: the shape of the handle it
    produces, or None when the node cannot be built (the construction status
    would record an error). */
module Opt {

  datatype Option<+T> = None | Some(value: T) {

    predicate IsFailure() {
      None?
    }

    function PropagateFailure<U>(): Option<U>
      requires None?
    {
      None
    }

    function Extract(): T
      requires Some?
    {
      value
    }
  }
}
