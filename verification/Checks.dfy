/**
 * Outcomes of code that states assertions. A step of a model either is fine or reports the place whose assertion (or
 * system-call precondition) it broke; that no step ever reports a fault is then a theorem about runs.
 */
module Checks {

  datatype Checked<+T> = Fine(value: T) | Fault(place: string) {
    predicate IsFailure() { Fault? }
    function PropagateFailure<U>(): Checked<U>
      requires Fault?
    {
      Fault(place)
    }
    function Extract(): T
      requires Fine?
    {
      value
    }
  }

  function Check(condition: bool, place: string): Checked<()>
  {
    if condition then Fine(()) else Fault(place)
  }
}
