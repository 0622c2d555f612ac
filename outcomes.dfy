/** Optional values and the error outcomes of the solvers.
    The solvers raise Python exceptions; here each one is an `Err` value. */
module Outcomes {

  datatype Option<+T> = None | Some(value: T)

  /** The exceptions the modelled code can end with. `ComplexValue` is not an
      exception of the source: it marks the point where the source's `** 0.5`
      of a negative number would produce a complex number, which the model does
      not follow. */
  datatype Error =
    | ZeroDivisionError
    | ValueError(reason: string)
    | TypeError
    | ComplexValue

  datatype Result<+T> = Ok(value: T) | Err(error: Error) {
    predicate IsFailure() { Err? }

    function PropagateFailure<U>(): Result<U>
      requires Err?
    {
      Err(error)
    }

    function Extract(): T
      requires Ok?
    {
      value
    }
  }

  /** `try: ... except ZeroDivisionError: raise ValueError(reason)`. */
  function OnZeroDivision<T>(x: Result<T>, reason: string): (r: Result<T>)
    ensures x.Ok? ==> r == x
    ensures x.Err? && x.error == ZeroDivisionError ==> r == Err(ValueError(reason))
    ensures x.Err? && x.error != ZeroDivisionError ==> r == x
  {
    if x.Err? && x.error == ZeroDivisionError then Err(ValueError(reason)) else x
  }

  /** `try: ... except ValueError: raise ValueError(reason)`. */
  function OnValueError<T>(x: Result<T>, reason: string): (r: Result<T>)
    ensures x.Ok? ==> r == x
    ensures x.Err? && x.error.ValueError? ==> r == Err(ValueError(reason))
    ensures x.Err? && !x.error.ValueError? ==> r == x
  {
    if x.Err? && x.error.ValueError? then Err(ValueError(reason)) else x
  }

  /** Python's `math.sqrt`/`math.asin` domain failure. */
  const MathDomainError: Error := ValueError("math domain error")

  /** `if bad: raise ValueError(reason)` ahead of a computation x. */
  function Reject<T>(bad: bool, reason: string, x: Result<T>): (r: Result<T>)
    ensures bad ==> r == Err(ValueError(reason))
    ensures !bad ==> r == x
  {
    if bad then Err(ValueError(reason)) else x
  }
}
