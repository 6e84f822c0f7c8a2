/** Vocabulary shared by every component of the model. */
module Basics {

  /** An account name. The chain packs names into 64-bit integers and orders tables by them. */
  type Name = nat

  datatype Option<+T> = None | Some(value: T)

  /**
   Why an action aborts. `Rejected` is a check on what the caller asked for. `Broken` is a check, or
   a trap such as a missing row or a division by zero, that guards the contract's own bookkeeping
   and that no caller should ever be able to trigger. `Endless` is a recursion that would not return.
   */
  datatype Error = Rejected | Broken | Endless

  /** The effect of a transition on values: the new state, or the abort. */
  datatype Result<+T> = Ok(value: T) | Err(error: Error)
  {
    predicate IsFailure() {
      Err?
    }

    function PropagateFailure<U>(): Result<U>
      requires Err?
    {
      Err(error)
    }

    function Extract(): T
      requires Ok?
    {
      value
    }
  }

  /** The effect of a transition on an object: the object holds the new state, or the abort. */
  datatype Outcome = Done | Aborted(error: Error)
  {
    predicate IsFailure() {
      Aborted?
    }

    function PropagateFailure(): Outcome
      requires Aborted?
    {
      this
    }
  }

  /** The source's `check`: for transitions on objects. */
  function Check(condition: bool, error: Error): Outcome {
    if condition then Done else Aborted(error)
  }

  /** The source's `check`: for transitions on values. */
  function Need(condition: bool, error: Error): Result<()> {
    if condition then Ok(()) else Err(error)
  }

  function Min(a: int, b: int): int {
    if a <= b then a else b
  }

  /** A table row's amount, or zero where the table has no row. */
  function At<K>(m: map<K, int>, k: K): int {
    if k in m then m[k] else 0
  }
}
