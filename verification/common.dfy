/** Small shared helpers: the optional value that stands for Python's `None`
    results, and Python's `int()` conversion of a float. */
module Common {

  /** A value or nothing: the `Optional[...]` results of the source. */
  datatype Option<+T> = None | Some(value: T)

  /** Python's `int(x)` on a float: truncation toward zero. */
  function TruncToInt(x: real): (r: int)
    ensures x >= 0.0 ==> r >= 0 && r as real <= x < r as real + 1.0
    ensures x < 0.0 ==> r as real - 1.0 < x <= r as real
  {
    if x >= 0.0 then x.Floor else -((-x).Floor)
  }
}
