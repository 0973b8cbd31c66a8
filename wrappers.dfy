/** Small failure-carrying datatypes shared by the modules of the model. */
module Wrappers {

  /** An optional value: `None` stands for JavaScript's `undefined`/`null`. */
  datatype Option<+T> = None | Some(value: T) {
    function GetOr(default: T): T {
      match this
      case Some(v) => v
      case None => default
    }
  }

  /** The outcome of an operation that may throw. */
  datatype Result<+R, +E> = Ok(value: R) | Err(error: E)

  /** `x || 0` on an optional number: absent and zero both give 0. */
  function OrZero(x: Option<real>): (r: real)
    ensures x.None? ==> r == 0.0
    ensures x.Some? ==> r == x.value
  {
    x.GetOr(0.0)
  }

  /** JavaScript truthiness of an optional number (NaN is not modelled). */
  predicate NumberTruthy(x: Option<real>) {
    x.Some? && x.value != 0.0
  }
}
