/** Failure-carrying values shared by every module of the engine model.
    Python exceptions of the original become `Err` values of `Result`. */
module Outcomes {

  datatype Option<+T> = None | Some(value: T)

  /** The exceptions the modelled code can raise. */
  datatype Error =
    | KeyError(key: string)            // dict or component parameter lookup of a missing key
    | LookupError(name: string)        // Component.__setitem__ of an undeclared parameter
    | AssertionError(what: string)     // a failed `assert` statement
    | AttributeError(what: string)     // an attribute that was never set (a link that was never wired)
    | TypeError(what: string)          // indexing or item assignment on a float
    | IndexError(what: string)         // path[-1] on an empty path, a short result vector
    | ZeroDivision                     // float division by zero
    | MissingAirspeed                  // Environment without 'v0' and without 'MACH'
    | IterationLimit                   // the solver's 'Exceeded iteration limit'
    | LinAlgError                      // the linear solve found no solution

  /** The outcome of an operation that returns nothing but may raise. */
  datatype Status = Success | Failure(error: Error)

  datatype Result<+T> = Ok(value: T) | Err(error: Error) {
    predicate IsFailure() { Err? }
    function PropagateFailure<U>(): Result<U>
      requires Err?
    {
      Err(error)
    }
    function Extract(): T
      requires Ok?
    {
      value
    }
  }

  /** Float division as Python performs it: division by zero raises. */
  function Div(x: real, y: real): (r: Result<real>)
    ensures r.Ok? <==> y != 0.0
    ensures r.Ok? ==> r.value * y == x
  {
    if y == 0.0 then Err(ZeroDivision) else Ok(x / y)
  }

  function Abs(x: real): (r: real)
    ensures r >= 0.0 && (r == x || r == -x)
  {
    if x < 0.0 then -x else x
  }
}
