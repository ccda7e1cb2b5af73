/** Python values as they are stored in a model instance's attribute
    dictionary, and the exceptions the ORM raises or lets through. */
module Values {

  /** The Python objects a field can hold: `None`, a `bool`, an `int` or a
      `str`. A `bool` is kept apart from an `int` because Python prints it
      as `True`/`False` although it compares as 1/0. */
  datatype Value = VNone | VBool(b: bool) | VInt(i: int) | VStr(s: string)

  /** The exception classes the core raises or lets propagate. */
  datatype Error =
    | ValidationError  // the ORM's own exception (bounds, length, required)
    | TypeError        // a comparison or `len` on a value of the wrong type
    | AttributeError   // a missing attribute, or the ORM's configuration errors
    | KeyError         // a missing dictionary key
    | ValueError       // `dict.update` given an element that is not a pair
    | IndexError       // a list index out of range

  datatype Option<+T> = None | Some(value: T)

  /** A Python call either returns a value or raises an exception. */
  datatype Result<+T> = Ok(value: T) | Err(error: Error)

  /** The integer Python compares a `bool` or an `int` as. */
  function NumericValue(v: Value): int
    requires v.VBool? || v.VInt?
  {
    if v.VInt? then v.i else if v.b then 1 else 0
  }
}
