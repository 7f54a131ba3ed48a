/** Failure-carrying values shared by every module of the model.
    Python exceptions become `Err` values, so that every error path of the
    source is an ordinary result instead of a precondition. */
module Common {

  datatype Option<+T> = None | Some(value: T)

  /** The Python exception classes the modelled code can raise. */
  datatype PyError =
    | ValueError     // an explicit `raise ValueError`, or `min()` of an empty sequence
    | IndexError     // a list index out of range
    | KeyError       // a missing dictionary key
    | TypeError      // an operation applied to a value of the wrong type (None, str index)
    | AttributeError // an attribute read before any assignment made it exist
    | ZeroDivisionError
    | AssertionError

  datatype Result<+T> = Ok(value: T) | Err(error: PyError)

  /** How a state-changing operation of the source ends: it returns, it raises,
      or (in the model only) it would still be drawing random candidates when
      the supplied stream of draws runs out. */
  datatype Outcome = Completed | Raised(error: PyError) | StreamExhausted

  function Min(a: int, b: int): (r: int)
    ensures r <= a && r <= b
    ensures r == a || r == b
  {
    if a <= b then a else b
  }
}
