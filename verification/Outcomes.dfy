/** The result of a piece of kernel code: a value, or the `panic` that a failed
    `assert` or a null dereference leads to. */
module Outcomes {

  datatype Outcome<+T> = Panic | Ok(value: T) {

    predicate IsFailure() { Panic? }

    function PropagateFailure<U>(): Outcome<U>
      requires Panic?
    {
      Panic
    }

    function Extract(): T
      requires Ok?
    {
      value
    }
  }
}
