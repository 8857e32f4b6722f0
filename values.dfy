/**
 * The dynamically typed arguments of the graph API and the way it reports
 * misuse. Python checks the kind of some arguments at run time and raises
 * `TypeError`; here an argument carries its kind explicitly and a failed
 * check becomes an error value.
 */
module Values {

  /** The kinds of Python value that the graph's checks tell apart. */
  datatype PyValue =
    | PyNone               // `None`
    | PyBool(b: bool)      // `True` / `False` (a subclass of `int` in Python)
    | PyInt(i: int)        // any other `int`
    | PyFloat(f: real)     // a `float`, taken as its exact real value
    | PyOther              // a value of any other type (a string, a list, ...)

  /** True of `int` and `float` values that are not `bool`, and of `None`. */
  predicate IsNumberOrNone(w: PyValue) {
    w.PyNone? || w.PyInt? || w.PyFloat?
  }

  /** The exception raised by a rejected argument, with its message. */
  datatype Error = TypeError(message: string) | OverflowError(message: string)

  const FloatOverflowMessage := "int too large to convert to float"

  /**
   * The least magnitude of an `int` that `float()` cannot convert: halfway
   * between the largest finite double, 2^1024 - 2^971, and 2^1024, which
   * rounds (half to even) up to 2^1024. It is 2^1024 - 2^970.
   */
  const FloatOverflowBound: int :=
    0xFFFF_FFFF_FFFF_FC00000000000000000000000000000000000000000000000000000000000000000000000000000000000000000000000000000000000000000000000000000000000000000000000000000000000000000000000000000000000000000000000000000000000000000000000000000000000000000000000000

  /** True of an `int` too large in magnitude to become a `float`. */
  predicate FloatOverflows(w: PyValue) {
    w.PyInt? && (w.i >= FloatOverflowBound || w.i <= -FloatOverflowBound)
  }

  /** Outcome of an operation that returns nothing in the source. */
  datatype Outcome = Pass | Fail(error: Error)

  /** Outcome of an operation that returns a value in the source. */
  datatype Result<T> = Ok(value: T) | Err(error: Error)

  /**
   * `float(weight)` for a weight that passed the graph's type checks; `None`
   * stays absent and an `int` beyond the range of `float` raises.
   */
  function ToFloat(w: PyValue): (r: Result<Option<real>>)
    requires IsNumberOrNone(w)
    ensures r.Err? <==> FloatOverflows(w)
    ensures r.Err? ==> r.error == OverflowError(FloatOverflowMessage)
    ensures r.Ok? ==> (r.value.Some? <==> !w.PyNone?)
  {
    match w
    case PyNone => Ok(None)
    case PyInt(i) =>
      if i >= FloatOverflowBound || i <= -FloatOverflowBound
      then Err(OverflowError(FloatOverflowMessage))
      else Ok(Some(i as real))
    case PyFloat(f) => Ok(Some(f))
  }

  /** An optional value; `None` plays Python's `None`. */
  datatype Option<T> = None | Some(value: T)
}
