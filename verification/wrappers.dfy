/** Optional values: the model's stand-in for JavaScript's `undefined` and `NaN`. */
module Wrappers {

  datatype Option<+T> = None | Some(value: T) {

    /** The value, or `default` when there is none (JavaScript's `x || default` on a present x). */
    function GetOr(default: T): T {
      match this
      case Some(v) => v
      case None => default
    }
  }

  /** A JavaScript number as `parseInt` and `parseFloat` return it: a value or `NaN`. */
  datatype Number = Num(value: real) | NaN {

    /** `n || d`: `NaN` and zero are falsy and give `d`. */
    function Or(d: real): (r: real)
      ensures NaN? || value == 0.0 ==> r == d
      ensures Num? && value != 0.0 ==> r == value
    {
      if NaN? || value == 0.0 then d else value
    }
  }
}
