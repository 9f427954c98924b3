/** Option/Result/Outcome used across the model, and the JavaScript number
    cases the widget can run into when it divides by a zero radius. */
module Wrappers {

  datatype Option<+T> = None | Some(value: T) {
    function GetOr(default: T): T {
      match this
      case Some(v) => v
      case None => default
    }
  }

  /** A computation that either produces a value or throws. */
  datatype Result<+T, +E> = Success(value: T) | Failure(error: E) {
    function GetOr(default: T): T {
      match this
      case Success(v) => v
      case Failure(_) => default
    }
  }

  /** A handler that either completes or throws. */
  datatype Outcome<+E> = Pass | Fail(error: E)

  /** A JavaScript number as far as the widget's arithmetic can take it:
      dividing by a zero radius gives Infinity or NaN, which is NonFinite. */
  datatype Num = Finite(value: real) | NonFinite

  function Abs(x: real): (r: real)
    ensures r >= 0.0
    ensures r == x || r == -x
  {
    if x < 0.0 then -x else x
  }

  /** `a / b` on JavaScript numbers. */
  function Quotient(a: real, b: real): (q: Num)
    ensures q.NonFinite? <==> b == 0.0
    ensures q.Finite? ==> q.value * b == a
  {
    if b == 0.0 then NonFinite else Finite(a / b)
  }
}
