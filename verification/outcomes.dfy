/** Failure-carrying results for the operations of the music generator.
    The original scripts signal failure by raising Python exceptions; each
    exception kind that the modelled code can raise becomes a `Fault`. */
module Outcomes {

  /** The Python exception kinds raised by the modelled code. */
  datatype Fault =
    | KeyError          // a dictionary lookup with an unknown key
    | ValueError        // `list.index` of an absent value, `int()` of a non-digit, `max()` of nothing
    | IndexError        // a list index outside the list
    | ZeroDivision      // a division by zero

  /** Either the value an operation returns or the exception it raises. */
  datatype Result<+T> = Ok(value: T) | Err(fault: Fault) {
    predicate IsFailure() {
      Err?
    }

    function PropagateFailure<U>(): Result<U>
      requires Err?
    {
      Err(fault)
    }

    function Extract(): T
      requires Ok?
    {
      value
    }
  }

}
