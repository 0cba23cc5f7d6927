/** Outcome types shared by the whole model. */
module Results {

  /** Why a step of the source would panic or never return. */
  datatype Fault =
    | Overflow   // a u32 addition or multiplication past u32::MAX
    | Underflow  // a u32 or usize subtraction below zero
    | Diverged   // generated elements nested deeper than the fuel bound

  datatype Option<+T> = None | Some(value: T)

  /** A value, or the fault at which the source would have panicked. */
  datatype Result<+T> = Ok(value: T) | Err(fault: Fault) {
    predicate IsFailure() { Err? }

    function PropagateFailure<U>(): Result<U>
      requires Err?
    {
      Err(fault)
    }

    function Extract(): T
      requires Ok?
    {
      value
    }
  }
}
