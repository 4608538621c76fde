/** The optional values of the analysis layer: a Python field that may hold `None`. */
module Wrappers {

  datatype Option<T> = None | Some(value: T)
  {
    /** `value if value is not None else default`. */
    function GetOr(default: T): (r: T)
      ensures Some? ==> r == value
      ensures None? ==> r == default
    {
      match this
      case Some(v) => v
      case None => default
    }
  }

  /** Python truthiness of an optional integer: present and non-zero. */
  predicate Truthy(o: Option<int>)
  {
    o.Some? && o.value != 0
  }

  /** Python truthiness of an optional real: present and non-zero. */
  predicate TruthyReal(o: Option<real>)
  {
    o.Some? && o.value != 0.0
  }
}
