/** Failure-carrying results shared by every strategy module. */
module Wrappers {

  datatype Option<+T> = None | Some(value: T)

  /** The Python exceptions the modelled callbacks can raise. */
  datatype PyError =
    | ZeroDivisionError   // `x / 0` on a float or int
    | TypeError           // a list sliced with a float index
    | IndexError          // `.iloc[-1]` on an empty frame
    | KeyError            // a dictionary lookup of a missing key
    | AttributeError      // an attribute the object does not have

  /** A call that either returns a value or raises out of the callback to the host. */
  datatype Result<+T> = Ok(value: T) | Raise(error: PyError)

  /** Python's `a / b`: raises when the divisor is zero. */
  function Div(a: real, b: real): (r: Result<real>)
    ensures r.Raise? <==> b == 0.0
    ensures r.Ok? ==> r.value * b == a
  {
    if b == 0.0 then Raise(ZeroDivisionError) else Ok(a / b)
  }

  /** Dividing by a positive `d` preserves both comparisons. */
  lemma ScaleBothSides(q: real, d: real, x: real, b: real)
    requires d > 0.0 && q * d == x
    ensures (q >= b <==> x >= b * d) && (q > b <==> x > b * d)
  {
    assert x - b * d == (q - b) * d;
  }

  /** A callback body wrapped in `try: ... except Exception: return None`: an exception becomes
      `None`; a normal return passes through. */
  function Caught<T>(r: Result<Option<T>>): (o: Option<T>)
    ensures r.Raise? ==> o.None?
    ensures r.Ok? ==> o == r.value
  {
    match r
    case Ok(v) => v
    case Raise(_) => None
  }
}
